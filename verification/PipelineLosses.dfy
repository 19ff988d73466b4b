/** Two runs that lose a batch silently, each by one step that breaks a run condition. */
module PipelineLosses {
  import opened Wrappers
  import opened Telemetry
  import opened MetricStore
  import opened AgentIdentity
  import opened BatchQueue
  import opened Pipeline
  import opened PipelineSafety

  const NOTHING: NetworkSnapshot := NetworkSnapshot(ZERO_TIME, 0, 0)

  function Reading(sequence: nat, cpu: real): Sample {
    Sample(sequence, 1, cpu, 0.0, 0.0, 0, 0, 0, 0)
  }

  function Single(sequence: nat, cpu: real): MetricBatch {
    MetricBatch("agent", "boot", [Reading(sequence, cpu)], 0, 1)
  }

  function Numbered(sequence: nat): IdentityRecord {
    IdentityRecord("boot", sequence, "", 0)
  }

  const PUT: Step := Step.Put(0, 0, "agent", 0, 1)

  lemma {:induction false} SingleSpan(sequence: nat, cpu: real)
    ensures First(Single(sequence, cpu)) == Last(Single(sequence, cpu)) == sequence
  {
  }

  /** A run grown step by step, all of whose careless steps are of one kind. */
  ghost predicate Grown(states: seq<State>, steps: seq<Step>, last: State, careless: set<Step>) {
    && IsRun(states, steps)
    && states[|steps|] == last
    && forall i :: 0 <= i < |steps| && !Careful(states[i], steps[i]) ==> steps[i] in careless
  }

  lemma {:induction false} Grow(states: seq<State>, steps: seq<Step>, last: State, careless: set<Step>, step: Step)
    returns (states': seq<State>, steps': seq<Step>)
    requires Grown(states, steps, last, careless) && Enabled(last, step)
    requires Careful(last, step) || step in careless
    ensures Grown(states', steps', Apply(last, step), careless)
  {
    states', steps' := states + [Apply(last, step)], steps + [step];
    hide Enabled, Apply, Careful;
    forall i | 0 <= i < |steps'|
      ensures Enabled(states'[i], steps'[i]) && states'[i + 1] == Apply(states'[i], steps'[i])
      ensures !Careful(states'[i], steps'[i]) ==> steps'[i] in careless
    {
      if i < |steps| {
        assert states'[i] == states[i] && steps'[i] == steps[i] && states'[i + 1] == states[i + 1];
      }
    }
  }

  /** A host that is up with nothing queued, about to deliver one batch numbered 1. */
  function Ready(file: IdentityRecord, store: Store, nextStream: nat, put: set<MetricBatch>): State {
    State("server", "boot", {"boot"}, Down, file, [], store, map[], map[], nextStream, put, {}, {}, {})
  }

  function Sent(cpu: real, file: IdentityRecord, store: Store, id: nat, put: set<MetricBatch>,
                unsaved: Option<MetricBatch>): State {
    var b := Single(1, cpu);
    State("server", "boot", {"boot"}, Up(Numbered(1), [], unsaved, Some(Stream(id, Some(b))), None),
          file, [b], store, map[id := b], map[], id + 1, put, {}, {}, {})
  }

  lemma {:induction false} CollectsReading(s: State, n: nat, cpu: real)
    requires s.agent == Up(Numbered(n), [], None, None, None) && s.boot == "boot"
    ensures Enabled(s, Collect(Some(Reading(0, cpu))))
    ensures Apply(s, Collect(Some(Reading(0, cpu))))
         == s.(agent := Up(Numbered(n + 1), [Reading(n + 1, cpu)], None, None, None))
  {
    assert Issue(Numbered(n), "boot") == Numbered(n + 1);
    assert [] + [Reading(n + 1, cpu)] == [Reading(n + 1, cpu)];
  }

  /** From a start, a sample numbered 1 is collected, put, and sent. */
  lemma {:induction false} DeliverFirst(states: seq<State>, steps: seq<Step>, careless: set<Step>, cpu: real,
                     file: IdentityRecord, store: Store, id: nat, put: set<MetricBatch>)
    returns (states': seq<State>, steps': seq<Step>)
    requires file == BLANK || file == Numbered(0)
    requires Grown(states, steps, Ready(file, store, id, put), careless)
    ensures Grown(states', steps', Sent(cpu, Numbered(0), store, id, put + {Single(1, cpu)}, Some(Single(1, cpu))),
                  careless)
  {
    var s0 := Ready(file, store, id, put);
    states', steps' := Grow(states, steps, s0, careless, Start);
    var s1 := s0.(agent := Up(Numbered(0), [], None, None, None), file := Numbered(0));
    assert Apply(s0, Start) == s1;
    var collect := Collect(Some(Reading(0, cpu)));
    states', steps' := Grow(states', steps', s1, careless, collect);
    var s2 := s1.(agent := Up(Numbered(1), [Reading(1, cpu)], None, None, None));
    CollectsReading(s1, 0, cpu);
    states', steps' := Grow(states', steps', s2, careless, PUT);
    var b := Single(1, cpu);
    var s3 := s2.(agent := Up(Numbered(1), [], Some(b), None, None), spool := [b], put := put + {b});
    assert Apply(s2, PUT) == s3 by {
      assert NewBatch(s2, PUT) == b && Elements(s2.spool[..0]) == {};
    }
    states', steps' := Grow(states', steps', s3, careless, Connect);
    var s4 := s3.(agent := Up(Numbered(1), [], Some(b), Some(Stream(id, None)), None), nextStream := id + 1);
    assert Apply(s3, Connect) == s4;
    states', steps' := Grow(states', steps', s4, careless, Send);
    assert Apply(s4, Send) == Sent(cpu, Numbered(0), store, id, put + {b}, Some(b)) by {
      assert map[][id := b] == map[id := b];
    }
  }

  /** The gateway handles the batch and the agent drops it from the spool; nothing is saved locally yet. */
  lemma {:induction false} Deliver(states: seq<State>, steps: seq<Step>, careless: set<Step>, cpu: real,
                file: IdentityRecord, store: Store, id: nat, put: set<MetricBatch>, unsaved: Option<MetricBatch>)
    returns (states': seq<State>, steps': seq<Step>)
    requires Grown(states, steps, Sent(cpu, file, store, id, put, unsaved), careless)
    ensures var after := Sent(cpu, file, store, id, put, unsaved).(
                           agent := Up(Numbered(1), [], unsaved, Some(Stream(id, None)), Some(("boot", 1))),
                           spool := [], requests := map[],
                           store := SaveBatch(store, "server", Single(1, cpu), NOTHING));
            Grown(states', steps', after, careless)
  {
    var s0 := Sent(cpu, file, store, id, put, unsaved);
    var b := Single(1, cpu);
    SingleSpan(1, cpu);
    hide SaveBatch, First, Last;
    var commit := Commit(id, NOTHING);
    states', steps' := Grow(states, steps, s0, careless, commit);
    var s1 := s0.(store := SaveBatch(store, "server", b, NOTHING), requests := map[],
                  replies := map[id := Ack("boot", 1)]);
    assert Apply(s0, commit) == s1 by {
      assert map[id := b] - {id} == map[];
    }
    states', steps' := Grow(states', steps', s1, careless, ReceiveAck);
    assert map[id := Ack("boot", 1)] - {id} == map[];
    assert RemoveFile([b], b) == [];
  }

  lemma {:induction false} SortOfOne(sample: Sample)
    ensures SortBySequence([sample]) == [sample]
  {
    assert [sample][1..] == [];
    assert SortBySequence([]) == [];
  }

  lemma {:induction false} SavedOnce(cpu: real, cpu': real)
    ensures var st := SaveBatch(EMPTY, "server", Single(1, cpu), NOTHING);
            && SaveBatch(st, "server", Single(1, cpu'), NOTHING) == st
            && (cpu != cpu' ==> !Committed(st, "server", Single(1, cpu')))
  {
    var samples, samples' := [Reading(1, cpu)], [Reading(1, cpu')];
    SortOfOne(samples[0]);
    SortOfOne(samples'[0]);
    var st := SaveBatch(EMPTY, "server", Single(1, cpu), NOTHING);
    assert st == SaveSample(EMPTY, "server", "boot", samples[0], NOTHING) by {
      assert SaveSamples(EMPTY, "server", "boot", samples, NOTHING)
          == SaveSamples(SaveSample(EMPTY, "server", "boot", samples[0], NOTHING), "server", "boot", samples[1..],
                         SnapshotOf(samples[0]));
    }
    AllKeysTaken(st, "server", "boot", samples', NOTHING);
    assert samples'[0] in Single(1, cpu').samples;
  }

  /** A crash after the acknowledged batch left the spool, but before its sequence was saved, makes the agent
      number a different sample alike; the gateway takes it for a duplicate and it is lost. */
  lemma {:induction false} CrashWindowLosesBatch() returns (states: seq<State>, steps: seq<Step>, lost: MetricBatch)
    ensures IsRun(states, steps)
    ensures forall i :: 0 <= i < |steps| && !Careful(states[i], steps[i]) ==> steps[i] == Crash
    ensures lost in states[|steps|].put && !Accounted(states[|steps|], lost)
  {
    SavedOnce(1.0, 2.0);
    hide SaveBatch, Apply, Enabled, Careful, IsRun;
    states, steps := DeliverThenCrash();
    states, steps := NumberAgain(states, steps);
    lost := Single(1, 2.0);
  }

  function FirstStored(): Store {
    SaveBatch(EMPTY, "server", Single(1, 1.0), NOTHING)
  }

  lemma {:induction false} DeliverThenCrash() returns (states: seq<State>, steps: seq<Step>)
    ensures Grown(states, steps, Ready(Numbered(0), FirstStored(), 1, {} + {Single(1, 1.0)}), {Crash})
  {
    var first := Single(1, 1.0);
    hide SaveBatch, Careful;
    states, steps := [Ready(BLANK, EMPTY, 0, {})], [];
    states, steps := DeliverFirst(states, steps, {Crash}, 1.0, BLANK, EMPTY, 0, {});
    states, steps := Deliver(states, steps, {Crash}, 1.0, Numbered(0), EMPTY, 0, {} + {first}, Some(first));
    states, steps := Grow(states, steps, states[|steps|], {Crash}, Crash);
  }

  lemma {:induction false} NumberAgain(states: seq<State>, steps: seq<Step>)
    returns (states': seq<State>, steps': seq<Step>)
    requires Grown(states, steps, Ready(Numbered(0), FirstStored(), 1, {} + {Single(1, 1.0)}), {Crash})
    ensures |states'| == |steps'| + 1
    ensures var last := states'[|steps'|];
            && Grown(states', steps', last, {Crash})
            && last.server == "server" && last.spool == [] && last.evicted == {} && last.quarantined == {}
            && Single(1, 2.0) in last.put
            && last.store == SaveBatch(FirstStored(), "server", Single(1, 2.0), NOTHING)
  {
    var put := {} + {Single(1, 1.0)} + {Single(1, 2.0)};
    hide SaveBatch;
    states', steps' := DeliverFirst(states, steps, {Crash}, 2.0, Numbered(0), FirstStored(), 1, {} + {Single(1, 1.0)});
    states', steps' := Grow(states', steps', states'[|steps'|], {Crash}, PersistSequence);
    states', steps' := Deliver(states', steps', {Crash}, 2.0, Numbered(1), FirstStored(), 1, put, None);
  }

  lemma {:induction false} TwoSpans()
    ensures First(Single(1, 1.0)) == Last(Single(1, 1.0)) == 1
    ensures First(Single(2, 2.0)) == Last(Single(2, 2.0)) == 2
    ensures RemoveFile([Single(2, 2.0), Single(1, 1.0)], Single(2, 2.0)) == [Single(1, 1.0)]
    ensures Acknowledge([Single(1, 1.0)], "boot", 2) == []
  {
    SingleSpan(1, 1.0);
    SingleSpan(2, 2.0);
    assert Prune([Single(1, 1.0)], 1, "boot", 2) == Prune([Single(1, 1.0)], 0, "boot", 2);
  }

  lemma {:induction false} SecondOnly()
    ensures !Committed(SaveBatch(EMPTY, "server", Single(2, 2.0), NOTHING), "server", Single(1, 1.0))
  {
    SaveBatchEffect(EMPTY, "server", Single(2, 2.0), NOTHING);
    assert Reading(1, 1.0) in Single(1, 1.0).samples;
  }

  /** A host whose spool holds two batches of its boot, the newer one first. */
  function Backdated(): State {
    State("server", "boot", {"boot"}, Up(Numbered(2), [], None, None, None), Numbered(2),
          [Single(2, 2.0), Single(1, 1.0)], EMPTY, map[], map[], 0, {Single(1, 1.0), Single(2, 2.0)}, {}, {}, {})
  }

  /** The newer batch is in flight. */
  function NewerSent(): State {
    Backdated().(agent := Up(Numbered(2), [], None, Some(Stream(0, Some(Single(2, 2.0)))), None),
                 requests := map[0 := Single(2, 2.0)], nextStream := 1)
  }

  /** The newer batch was committed and dropped from the spool. */
  function NewerDelivered(store: Store): State {
    Backdated().(agent := Up(Numbered(2), [], None, Some(Stream(0, None)), Some(("boot", 2))),
                 spool := [Single(1, 1.0)], store := store, nextStream := 1)
  }

  /** If the spool clock runs back between two batches, the newer one is sent and acknowledged first; the prune on
      the next connect then deletes the older one, which the gateway never saw. */
  lemma {:induction false} ClockStepBackLosesBatch() returns (states: seq<State>, steps: seq<Step>, lost: MetricBatch)
    ensures IsRun(states, steps)
    ensures forall i :: 0 <= i < |steps| && !Careful(states[i], steps[i]) ==> steps[i].Put?
    ensures lost in states[|steps|].put && !Accounted(states[|steps|], lost)
  {
    EmptyIsValid();
    SecondOnly();
    hide SaveBatch;
    states, steps := QueueOlder();
    states, steps := QueueNewerFirst(states, steps);
    states, steps := SendNewer(states, steps);
    states, steps := DeliverNewer(states, steps);
    states, steps := PruneOlder(states, steps, {PUT}, SaveBatch(EMPTY, "server", Single(2, 2.0), NOTHING));
    lost := Single(1, 1.0);
  }

  function OlderQueued(): State {
    Backdated().(agent := Up(Numbered(1), [], None, None, None), file := Numbered(1),
                 spool := [Single(1, 1.0)], put := {Single(1, 1.0)})
  }

  lemma {:induction false} QueueOlder() returns (states: seq<State>, steps: seq<Step>)
    ensures Grown(states, steps, OlderQueued(), {PUT})
  {
    var older := Single(1, 1.0);
    hide First, Last;
    var s0 := Ready(BLANK, EMPTY, 0, {});
    states, steps := Grow([s0], [], s0, {PUT}, Start);
    var s1 := s0.(agent := Up(Numbered(0), [], None, None, None), file := Numbered(0));
    assert Apply(s0, Start) == s1;
    CollectsReading(s1, 0, 1.0);
    states, steps := Grow(states, steps, s1, {PUT}, Collect(Some(Reading(0, 1.0))));
    var s2 := s1.(agent := Up(Numbered(1), [Reading(1, 1.0)], None, None, None));
    states, steps := Grow(states, steps, s2, {PUT}, PUT);
    var s3 := s2.(agent := Up(Numbered(1), [], Some(older), None, None), spool := [older], put := {older});
    assert Apply(s2, PUT) == s3 by {
      assert NewBatch(s2, PUT) == older && Elements(s2.spool[..0]) == {};
    }
    states, steps := Grow(states, steps, s3, {PUT}, PersistSequence);
  }

  lemma {:induction false} QueueNewerFirst(states: seq<State>, steps: seq<Step>)
    returns (states': seq<State>, steps': seq<Step>)
    requires Grown(states, steps, OlderQueued(), {PUT})
    ensures Grown(states', steps', Backdated(), {PUT})
  {
    var older, newer := Single(1, 1.0), Single(2, 2.0);
    hide First, Last;
    var s4 := OlderQueued();
    CollectsReading(s4, 1, 2.0);
    states', steps' := Grow(states, steps, s4, {PUT}, Collect(Some(Reading(0, 2.0))));
    var s5 := s4.(agent := Up(Numbered(2), [Reading(2, 2.0)], None, None, None));
    states', steps' := Grow(states', steps', s5, {PUT}, PUT);
    var s6 := s5.(agent := Up(Numbered(2), [], Some(newer), None, None), spool := [newer, older],
                  put := {older, newer});
    assert Apply(s5, PUT) == s6 by {
      assert NewBatch(s5, PUT) == newer && Elements(s5.spool[..0]) == {};
      assert InsertAt(s5.spool[0..], newer, 0) == [newer, older];
    }
    states', steps' := Grow(states', steps', s6, {PUT}, PersistSequence);
  }

  lemma {:induction false} SendNewer(states: seq<State>, steps: seq<Step>)
    returns (states': seq<State>, steps': seq<Step>)
    requires Grown(states, steps, Backdated(), {PUT})
    ensures Grown(states', steps', NewerSent(), {PUT})
  {
    var s7 := Backdated();
    states', steps' := Grow(states, steps, s7, {PUT}, Connect);
    var s8 := s7.(agent := Up(Numbered(2), [], None, Some(Stream(0, None)), None), nextStream := 1);
    states', steps' := Grow(states', steps', s8, {PUT}, Send);
    assert map[][0 := Single(2, 2.0)] == map[0 := Single(2, 2.0)];
  }

  lemma {:induction false} DeliverNewer(states: seq<State>, steps: seq<Step>)
    returns (states': seq<State>, steps': seq<Step>)
    requires Grown(states, steps, NewerSent(), {PUT})
    ensures Grown(states', steps', NewerDelivered(SaveBatch(EMPTY, "server", Single(2, 2.0), NOTHING)), {PUT})
  {
    TwoSpans();
    hide SaveBatch, First, Last, Acknowledge, RemoveFile;
    var s9, commit := NewerSent(), Commit(0, NOTHING);
    states', steps' := Grow(states, steps, s9, {PUT}, commit);
    assert Apply(s9, commit) == NewerCommitted();
    states', steps' := Grow(states', steps', NewerCommitted(), {PUT}, ReceiveAck);
    NewerReceived();
  }

  /** The newer batch is committed, and its acknowledgement is under way. */
  function NewerCommitted(): State {
    NewerSent().(store := SaveBatch(EMPTY, "server", Single(2, 2.0), NOTHING),
                 requests := map[0 := Single(2, 2.0)] - {0}, replies := map[][0 := Ack("boot", 2)])
  }

  lemma {:induction false} NewerReceived()
    ensures Enabled(NewerCommitted(), ReceiveAck)
    ensures Apply(NewerCommitted(), ReceiveAck) == NewerDelivered(SaveBatch(EMPTY, "server", Single(2, 2.0), NOTHING))
  {
    TwoSpans();
    hide SaveBatch, First, Last, Acknowledge, RemoveFile;
    assert map[0 := Single(2, 2.0)] - {0} == map[];
    assert map[][0 := Ack("boot", 2)] - {0} == map[];
  }

  /** Saving the acknowledgement and reconnecting deletes the older batch. */
  lemma {:induction false} PruneOlder(states: seq<State>, steps: seq<Step>, careless: set<Step>, store: Store)
    returns (states': seq<State>, steps': seq<Step>)
    requires Grown(states, steps, NewerDelivered(store), careless)
    ensures |states'| == |steps'| + 1
    ensures var last := states'[|steps'|];
            && Grown(states', steps', last, careless)
            && last.server == "server" && last.spool == [] && last.store == store
            && last.put == {Single(1, 1.0), Single(2, 2.0)} && last.evicted == {} && last.quarantined == {}
  {
    TwoSpans();
    hide First, Last, Acknowledge, RemoveFile;
    var s11 := NewerDelivered(store);
    states', steps' := Grow(states, steps, s11, careless, SaveAck);
    var saved := IdentityRecord("boot", 2, "boot", 2);
    var s12 := s11.(agent := Up(saved, [], None, Some(Stream(0, None)), None), file := saved);
    states', steps' := Grow(states', steps', s12, careless, Disconnect);
    var s13 := s12.(agent := Up(saved, [], None, None, None));
    states', steps' := Grow(states', steps', s13, careless, Connect);
  }
}
