/** Which steps can lead to a silent loss: exactly those that do not meet the conditions for a lossless step. */
module PipelineLossExact {
  import opened Wrappers
  import opened Telemetry
  import opened MetricStore
  import opened AgentIdentity
  import opened BatchQueue
  import opened Pipeline
  import opened PipelineSafety
  import opened PipelineCrashes
  import opened PipelineLossFree
  import opened PipelineLossFreeSteps
  import opened PipelineProgress

  // ----- Lossless runs lose nothing -----

  ghost predicate LosslessRun(s: State, states: seq<State>, steps: seq<Step>) {
    && |states| == |steps| + 1
    && states[0] == s
    && forall i :: 0 <= i < |steps| ==>
         Enabled(states[i], steps[i]) && Lossless(states[i], steps[i]) && states[i + 1] == Apply(states[i], steps[i])
  }

  /** No run of lossless steps from here ever loses a batch. */
  ghost predicate NeverLoses(s: State) {
    forall states, steps :: LosslessRun(s, states, steps) ==> NothingLost(states[|steps|])
  }

  lemma {:induction false} LossFreeThroughout(s: State, states: seq<State>, steps: seq<Step>, i: nat)
    requires LossFree(s) && LosslessRun(s, states, steps) && i < |states|
    ensures LossFree(states[i])
  {
    hide LossFree, Apply, Enabled, Lossless;
    if i > 0 {
      LossFreeThroughout(s, states, steps, i - 1);
      StepKeepsLossFree(states[i - 1], steps[i - 1]);
    }
  }

  lemma {:induction false} LossFreeNeverLoses(s: State)
    requires LossFree(s)
    ensures NeverLoses(s)
  {
    hide Apply, Enabled, Lossless, NothingLost;
    forall states, steps | LosslessRun(s, states, steps) ensures NothingLost(states[|steps|]) {
      LossFreeThroughout(s, states, steps, |steps|);
      LossFreeIsLossless(states[|steps|]);
    }
  }

  lemma {:induction false} LossFreeIsLossless(s: State)
    requires LossFree(s)
    ensures NothingLost(s)
  {
  }

  /** In every run of lossless steps from a fresh host, each batch put is spooled, committed, evicted or quarantined. */
  lemma {:induction false} LosslessRunsLoseNothing(s: State, states: seq<State>, steps: seq<Step>, i: nat,
                                                   b: MetricBatch)
    requires Init(s) && LosslessRun(s, states, steps) && i < |states| && b in states[i].put
    ensures Accounted(states[i], b)
  {
    InitInv(s);
    InvIsLossFree(s);
    LossFreeThroughout(s, states, steps, i);
  }

  // ----- Lossless runs, by where they lead -----

  ghost predicate Reaches(s: State, u: State) {
    exists states, steps :: LosslessRun(s, states, steps) && states[|steps|] == u
  }

  lemma {:induction false} ReachesItself(s: State)
    ensures Reaches(s, s)
  {
    assert LosslessRun(s, [s], []);
  }

  lemma {:induction false} ReachesOn(s: State, u: State, step: Step)
    requires Reaches(s, u) && Enabled(u, step) && Lossless(u, step)
    ensures Reaches(s, Apply(u, step))
  {
    hide Apply, Enabled, Lossless;
    var states, steps :| LosslessRun(s, states, steps) && states[|steps|] == u;
    var states', steps' := states + [Apply(u, step)], steps + [step];
    forall i | 0 <= i < |steps'|
      ensures Enabled(states'[i], steps'[i]) && Lossless(states'[i], steps'[i])
      ensures states'[i + 1] == Apply(states'[i], steps'[i])
    {
      if i < |steps| {
        assert states'[i] == states[i] && steps'[i] == steps[i] && states'[i + 1] == states[i + 1];
      }
    }
    assert LosslessRun(s, states', steps') && states'[|steps'|] == Apply(u, step);
  }

  lemma {:induction false} MildIsLossless(s: State, step: Step)
    requires Enabled(s, step) && Mild(step)
    ensures Lossless(s, step)
  {
  }

  lemma {:induction false} ReachesMildly(s: State, u: State, states: seq<State>, steps: seq<Step>, i: nat)
    requires Reaches(s, u) && MildRun(u, states, steps) && i < |states|
    ensures Reaches(s, states[i])
  {
    hide Apply, Enabled, Lossless, Reaches, Mild, Careful;
    if i > 0 {
      ReachesMildly(s, u, states, steps, i - 1);
      MildIsLossless(states[i - 1], steps[i - 1]);
      ReachesOn(s, states[i - 1], steps[i - 1]);
    }
  }

  lemma {:induction false} GetsReaches(s: State, u: State, last: State)
    requires Reaches(s, u) && Gets(u, last)
    ensures Reaches(s, last)
  {
    hide Reaches, Enabled, Apply, Careful, Mild;
    var states, steps :| MildRun(u, states, steps) && states[|steps|] == last;
    ReachesMildly(s, u, states, steps, |steps|);
  }

  lemma {:induction false} LosesByReaching(s: State, u: State, b: MetricBatch)
    requires Reaches(s, u) && b in u.put && !Accounted(u, b)
    ensures !NeverLoses(s)
  {
    hide Accounted, Enabled, Apply, Lossless;
    var states, steps :| LosslessRun(s, states, steps) && states[|steps|] == u;
    assert !NothingLost(states[|steps|]);
  }

  // ----- A batch that can no longer be stored is lost -----

  /** The tables hold another sample under one of the batch's keys. */
  predicate Blocked(st: Store, server: string, b: MetricBatch) {
    exists sample :: sample in b.samples && KeyOf(server, b.bootId, sample) in st.samples
                     && st.samples[KeyOf(server, b.bootId, sample)].sample != sample
  }

  predicate Unstorable(st: Store, server: string, b: MetricBatch) {
    Blocked(st, server, b) || !KeysDistinct(b.samples)
  }

  lemma {:induction false} UnstorableIsUncommitted(st: Store, server: string, b: MetricBatch)
    requires Unstorable(st, server, b)
    ensures !Committed(st, server, b)
  {
    if Blocked(st, server, b) {
      var sample :| sample in b.samples && KeyOf(server, b.bootId, sample) in st.samples
                    && st.samples[KeyOf(server, b.bootId, sample)].sample != sample;
      assert !Stored(st, server, b.bootId, sample);
    } else {
      var x, y :| x in b.samples && y in b.samples && Clamp(x.sequence) == Clamp(y.sequence) && x != y;
      assert KeyOf(server, b.bootId, x) == KeyOf(server, b.bootId, y);
      assert Stored(st, server, b.bootId, x) ==> !Stored(st, server, b.bootId, y);
    }
  }

  /** Rows never change, and the history of what was put is not rewritten by mild steps. */
  ghost predicate Grows(s: State, u: State) {
    && u.server == s.server && u.put == s.put && u.evicted == s.evicted && u.quarantined == s.quarantined
    && forall k :: k in s.store.samples ==> k in u.store.samples && u.store.samples[k] == s.store.samples[k]
  }

  lemma {:induction false} MildStepGrows(s: State, step: Step)
    requires Enabled(s, step) && Mild(step)
    ensures Grows(s, Apply(s, step))
  {
    if step.Commit? {
      var request := s.requests[step.id];
      SaveSamplesRows(s.store, s.server, request.bootId, SortBySequence(request.samples), step.previous);
      hide SaveSamples, SortBySequence;
    }
  }

  lemma {:induction false} MildRunGrows(s: State, states: seq<State>, steps: seq<Step>, i: nat)
    requires MildRun(s, states, steps) && i < |states|
    ensures Grows(s, states[i])
  {
    hide Apply, Enabled, Mild, Careful;
    if i > 0 {
      MildRunGrows(s, states, steps, i - 1);
      MildStepGrows(states[i - 1], steps[i - 1]);
    }
  }

  lemma {:induction false} GetsGrows(s: State, u: State)
    requires Gets(s, u)
    ensures Grows(s, u)
  {
    hide Grows, Enabled, Apply, Careful, Mild;
    var states, steps :| MildRun(s, states, steps) && states[|steps|] == u;
    MildRunGrows(s, states, steps, |steps|);
  }

  lemma {:induction false} StaysUnstorable(s: State, u: State, b: MetricBatch)
    requires Grows(s, u) && Unstorable(s.store, s.server, b)
    ensures Unstorable(u.store, u.server, b)
  {
    hide KeysDistinct;
    if Blocked(s.store, s.server, b) {
      var sample :| sample in b.samples && KeyOf(s.server, b.bootId, sample) in s.store.samples
                    && s.store.samples[KeyOf(s.server, b.bootId, sample)].sample != sample;
      assert u.store.samples[KeyOf(s.server, b.bootId, sample)].sample != sample;
    }
  }

  /** Such a batch is acknowledged like any other, leaves the spool, and is accounted for nowhere. */
  lemma {:induction false} UnstorableIsLost(s: State, u: State, b: MetricBatch)
    requires Reaches(s, u) && StreamsFresh(u) && AllAcceptable(u.spool)
    requires b in u.put && b !in u.evicted && b !in u.quarantined && Unstorable(u.store, u.server, b)
    ensures !NeverLoses(s)
  {
    hide Reaches, Gets, Unstorable, StreamsFresh, AllAcceptable, NeverLoses, Committed;
    var last := Drain(u);
    GetsReaches(s, u, last);
    GetsGrows(u, last);
    StaysUnstorable(u, last, b);
    UnstorableIsUncommitted(last.store, last.server, b);
    LosesByReaching(s, last, b);
  }

  // ----- Collecting and putting up to a chosen sequence -----

  lemma {:induction false} CountsUp(s: State, u: State, k: nat)
    requires Reaches(s, u) && Collecting(u) && u.agent.memory.bootId == u.boot
    requires u.agent.memory.lastSequence + k <= MAX_INT64
    ensures Reaches(s, Counting(u, u.agent.memory.lastSequence + k))
  {
    hide Reaches;
    var n := u.agent.memory.lastSequence;
    if k == 0 {
      assert Counting(u, n) == u;
    } else {
      CountsUp(s, u, k - 1);
      ReachesOn(s, Counting(u, n + k - 1), Collect(None));
      assert Apply(Counting(u, n + k - 1), Collect(None)) == Counting(u, n + k);
    }
  }

  function Alone(bootId: string, sample: Sample): MetricBatch {
    MetricBatch("agent", bootId, [sample], 0, 1)
  }

  /** The state after collecting one sample and putting it, at the end of the queue, as a batch of its own. */
  lemma {:induction false} PutsAlone(s: State, u: State, sample: Sample) returns (last: State)
    requires Reaches(s, u) && Collecting(u) && u.agent.pending == [] && u.agent.memory.bootId == u.boot
    requires sample.sequence == u.agent.memory.lastSequence + 1 <= MAX_INT64
    ensures Reaches(s, last) && last.spool == u.spool + [Alone(u.boot, sample)]
    ensures last.server == u.server && last.store == u.store && last.evicted == u.evicted
    ensures last.quarantined == u.quarantined
    ensures Alone(u.boot, sample) in last.put && (StreamsFresh(u) ==> StreamsFresh(last))
  {
    hide Reaches;
    ReachesOn(s, u, Collect(Some(sample)));
    var collected := Apply(u, Collect(Some(sample)));
    assert collected.agent.pending == [sample];
    var put := Step.Put(0, |u.spool|, "agent", 0, 1);
    ReachesOn(s, collected, put);
    last := Apply(collected, put);
    assert u.spool[0..][..|u.spool|] == u.spool;
    assert Elements(u.spool[..0]) == {};
  }

  /** A sample that differs from the one the batch carries under its last sequence. */
  lemma {:induction false} Clash(st: Store, server: string, b: MetricBatch) returns (clash: Sample)
    requires b.samples != [] && Committed(st, server, b)
    ensures clash.sequence == Last(b) && clash !in b.samples
    ensures Blocked(st, server, Alone(b.bootId, clash))
  {
    LastIsCarried(b);
    var carried :| carried in b.samples && carried.sequence == Last(b);
    clash := carried.(cpuPercent := carried.cpuPercent + 1.0);
    assert Stored(st, server, b.bootId, carried);
    assert clash != carried && !Stored(st, server, b.bootId, clash);
    assert clash in Alone(b.bootId, clash).samples;
  }

  /** Numbering that starts again below a stored batch can bring a sample that the tables refuse. */
  lemma {:induction false} ReissueLoses(s: State, u: State, b: MetricBatch)
    requires Reaches(s, u) && Collecting(u) && u.agent.pending == [] && u.agent.memory.bootId == u.boot
    requires b.bootId == u.boot && b.samples != [] && Committed(u.store, u.server, b)
    requires u.agent.memory.lastSequence < Last(b) <= MAX_INT64
    requires StreamsFresh(u) && AllAcceptable(u.spool)
    requires forall x :: x in u.evicted + u.quarantined && x.bootId == u.boot && First(x) <= Last(b) <= Last(x) ==>
               x == b
    ensures !NeverLoses(s)
  {
    var clash := Clash(u.store, u.server, b);
    var lost := Alone(u.boot, clash);
    hide Reaches, Committed, NeverLoses, StreamsFresh, Blocked, Clamp;
    assert First(lost) == Last(lost) == Last(b) && lost.samples[0] == clash && Acceptable(lost);
    CountsUp(s, u, Last(b) - 1 - u.agent.memory.lastSequence);
    CountingKeeps(u, Last(b) - 1);
    var last := PutsAlone(s, Counting(u, Last(b) - 1), clash);
    UnstorableIsLost(s, last, lost);
  }

  lemma {:induction false} CountingKeeps(u: State, n: nat)
    requires u.agent.Up?
    ensures var c := Counting(u, n);
            && c.spool == u.spool && c.store == u.store && c.server == u.server && c.boot == u.boot
            && c.evicted == u.evicted && c.quarantined == u.quarantined && (StreamsFresh(u) ==> StreamsFresh(c))
            && (Collecting(u) ==> Collecting(c)) && c.agent.Up? && c.agent.pending == u.agent.pending
            && c.agent.memory == u.agent.memory.(lastSequence := n)
  {
  }

  // ----- A crash -----

  /** After the crash the batch is stored, or a request under way stores it now. */
  lemma {:induction false} StoreUnsaved(s: State, b: MetricBatch) returns (v: State)
    requires Inv(s) && Enabled(s, Crash) && b in s.put && MayBeStored(s, b)
    ensures Reaches(Apply(s, Crash), v) && Committed(v.store, v.server, b)
    ensures v.agent.Down? && v.file == s.file && v.spool == s.spool && v.boot == s.boot && v.server == s.server
    ensures v.put == s.put && v.evicted == s.evicted && v.quarantined == s.quarantined && StreamsFresh(v)
  {
    hide Reaches, BatchesOk, SpoolOk, NumberingOk, RecordsOk, StoreOk, HistoryOk, WasHead, Committed, SaveBatch;
    assert StreamsFresh(s);
    v := Apply(s, Crash);
    ReachesItself(v);
    if !Committed(s.store, s.server, b) {
      var id :| id in s.requests && s.requests[id] == b;
      assert Acceptable(b) by { PutIsAcceptable(s, b); }
      SavedIsCommitted(s, b, FIRST_READING);
      ReachesOn(v, v, Commit(id, FIRST_READING));
      v := Apply(v, Commit(id, FIRST_READING));
    }
  }

  lemma {:induction false} PutIsAcceptable(s: State, b: MetricBatch)
    requires BatchesOk(s) && b in s.put
    ensures Acceptable(b) && Last(b) <= MAX_INT64
  {
  }

  lemma {:induction false} SpoolIsAcceptable(s: State)
    requires BatchesOk(s) && SpoolOk(s)
    ensures AllAcceptable(s.spool)
  {
  }

  lemma {:induction false} CrashCanLose(s: State)
    requires Inv(s) && Enabled(s, Crash) && !Lossless(s, Crash)
    ensures !NeverLoses(Apply(s, Crash))
  {
    var b := s.agent.unsaved.value;
    UnsavedIsPut(s);
    HighestBelow(s, b);
    PutIsAcceptable(s, b);
    SpoolIsAcceptable(s);
    assert s.file.bootId == s.boot;
    forall x | x in s.evicted + s.quarantined && x.bootId == s.boot && First(x) <= Last(b) <= Last(x) ensures x == b {
      PutSpan(s, b);
      OneBatchPerSequence(s, x, b, Last(b));
    }
    var v := StoreUnsaved(s, b);
    hide Inv, Reaches, NeverLoses, Committed, Acceptable, AllAcceptable, StreamsFresh, Highest, First, Last;
    ReachesOn(Apply(s, Crash), v, Start);
    var u := Apply(v, Start);
    assert StreamsFresh(u) by { StartKeepsStreams(v); }
    ReissueLoses(Apply(s, Crash), u, b);
  }

  lemma {:induction false} StartKeepsStreams(s: State)
    requires Enabled(s, Start) && StreamsFresh(s)
    ensures StreamsFresh(Apply(s, Start))
  {
  }

  // ----- A put that overtakes an unstored batch -----

  /** Storing one batch stores no sample of another. */
  lemma {:induction false} SavingAnother(st: Store, server: string, y: MetricBatch, x: MetricBatch,
                                         previous: NetworkSnapshot)
    requires KeysApart(y, x) && x.samples != [] && y.samples != [] && !Committed(st, server, x)
    ensures !Committed(SaveBatch(st, server, y, previous), server, x)
  {
    var st', sorted := SaveBatch(st, server, y, previous), SortBySequence(y.samples);
    SortedMembers(y.samples);
    SaveSamplesRows(st, server, y.bootId, sorted, previous);
    assert st' == SaveSamples(st, server, y.bootId, sorted, previous);
    var sample :| sample in x.samples && !Stored(st, server, x.bootId, sample);
    hide SaveBatch, SaveSamples, SortBySequence, First, Last, Clamp;
    var k := KeyOf(server, x.bootId, sample);
    KeyWithin(x, sample);
    if k in st'.samples && k !in st.samples {
      var i :| 0 <= i < |sorted| && KeyOf(server, y.bootId, sorted[i]) == k && st'.samples[k].sample == sorted[i];
      assert sorted[i] in y.samples;
      KeyWithin(y, sorted[i]);
    }
    assert !Stored(st', server, x.bootId, sample);
  }

  lemma {:induction false} PruneConcat(a: Queue, b: Queue, bootId: string, through: nat)
    ensures BatchQueue.Acknowledge(a + b, bootId, through)
         == BatchQueue.Acknowledge(a, bootId, through) + BatchQueue.Acknowledge(b, bootId, through)
    decreases |b|
  {
    PruneOfPrefix(a, b, bootId, through, |b|);
    assert a + b[..|b|] == a + b;
  }

  lemma {:induction false} PruneOfPrefix(a: Queue, b: Queue, bootId: string, through: nat, n: nat)
    requires n <= |b|
    ensures Prune(a + b, |a| + n, bootId, through) == Prune(a, |a|, bootId, through) + Prune(b, n, bootId, through)
  {
    hide CoveredBy;
    if n == 0 {
      PruneLooksBelow(a + b, a, |a|, bootId, through);
    } else {
      PruneOfPrefix(a, b, bootId, through, n - 1);
      assert (a + b)[|a| + n - 1] == b[n - 1];
    }
  }

  lemma {:induction false} PruneLooksBelow(q: Queue, r: Queue, n: nat, bootId: string, through: nat)
    requires n <= |q| && n <= |r| && q[..n] == r[..n]
    ensures Prune(q, n, bootId, through) == Prune(r, n, bootId, through)
  {
    hide CoveredBy;
    if n > 0 {
      assert q[..n - 1] == q[..n][..n - 1] == r[..n][..n - 1] == r[..n - 1];
      assert q[n - 1] == q[..n][n - 1] == r[..n][n - 1] == r[n - 1];
      PruneLooksBelow(q, r, n - 1, bootId, through);
    }
  }

  /** What waits: some batches, then the new one, then among others the overtaken one, which is not stored. */
  ghost predicate Behind(u: State, before: Queue, b: MetricBatch, after: Queue, x: MetricBatch) {
    && u.spool == before + [b] + after
    && x in after && x !in before && x != b
    && !Committed(u.store, u.server, x)
    && (forall y :: y in u.spool ==> Acceptable(y) && (y == x || KeysApart(y, x)))
  }

  /** A prune that removes stored batches only leaves both in place. */
  lemma {:induction false} PruneKeepsBehind(u: State, v: State, before: Queue, b: MetricBatch, after: Queue,
                                            x: MetricBatch, ack: (string, nat))
    returns (before': Queue, after': Queue)
    requires Behind(u, before, b, after, x) && v.store == u.store && v.server == u.server
    requires v.spool == BatchQueue.Acknowledge(u.spool, ack.0, ack.1)
    requires !CoveredBy(b, ack.0, ack.1) && !CoveredBy(x, ack.0, ack.1)
    ensures Behind(v, before', b, after', x)
  {
    hide CoveredBy, Committed, Acceptable, KeysApart, Thins;
    before', after' := BatchQueue.Acknowledge(before, ack.0, ack.1), BatchQueue.Acknowledge(after, ack.0, ack.1);
    PruneConcat(before + [b], after, ack.0, ack.1);
    PruneConcat(before, [b], ack.0, ack.1);
    PruneOne(b, ack.0, ack.1);
    AcknowledgeThins(before, ack.0, ack.1);
    AcknowledgeThins(after, ack.0, ack.1);
    AcknowledgeThins(u.spool, ack.0, ack.1);
  }

  lemma {:induction false} PruneOne(b: MetricBatch, bootId: string, through: nat)
    requires !CoveredBy(b, bootId, through)
    ensures BatchQueue.Acknowledge([b], bootId, through) == [b]
  {
    assert Prune([b], 0, bootId, through) == [];
  }

  lemma {:induction false} HeadIsAnother(u: State, before: Queue, b: MetricBatch, after: Queue, x: MetricBatch)
    requires Behind(u, before, b, after, x)
    ensures u.spool != [] && u.spool[0] == (if before == [] then b else before[0])
    ensures u.spool[1..] == if before == [] then after else before[1..] + [b] + after
    ensures Acceptable(u.spool[0]) && Acceptable(x)
    ensures !Committed(SaveBatch(u.store, u.server, u.spool[0], FIRST_READING), u.server, x)
  {
    hide Committed, Acceptable, KeysApart, SaveBatch;
    var head := u.spool[0];
    assert head in u.spool && x in u.spool;
    if before != [] {
      assert head == before[0] && before[0] in before;
    }
    assert Acceptable(head) && Acceptable(x) && KeysApart(head, x);
    SamplesOf(head);
    SamplesOf(x);
    SavingAnother(u.store, u.server, head, x, FIRST_READING);
  }

  lemma {:induction false} StillBehind(u: State, v: State, before: Queue, b: MetricBatch, after: Queue, x: MetricBatch)
    requires Behind(u, before, b, after, x) && before != []
    requires v.spool == before[1..] + [b] + after && u.spool[1..] == v.spool && !Committed(v.store, v.server, x)
    ensures Behind(v, before[1..], b, after, x)
  {
    hide Committed, Acceptable, KeysApart;
    assert forall y :: y in v.spool ==> y in u.spool;
  }

  /** Deliver everything up to and including the new batch; the overtaken one is still not stored. */
  lemma {:induction false} DeliverUpTo(s: State, u: State, before: Queue, b: MetricBatch, after: Queue, x: MetricBatch)
    returns (last: State)
    requires Gets(s, u) && Idle(u) && StreamsFresh(u) && u.agent.stream.value.id < u.nextStream
    requires Behind(u, before, b, after, x)
    ensures Gets(s, last) && Idle(last) && StreamsFresh(last) && last.spool == after
    ensures !Committed(last.store, last.server, x)
    ensures last.agent.memory.acknowledgedBootId == b.bootId && last.agent.memory.acknowledgedSequence >= Last(b)
    decreases |before|
  {
    hide Gets, Idle, Committed, Acceptable, SaveBatch, Last, Delivered, StreamsFresh, Behind;
    HeadIsAnother(u, before, b, after, x);
    DeliveredIsIdle(u);
    Deliver(s, u);
    last := Delivered(u);
    if before != [] {
      StillBehind(u, last, before, b, after, x);
      last := DeliverUpTo(s, last, before[1..], b, after, x);
    }
  }

  lemma {:induction false} ConnectStays(u: State)
    requires StreamsFresh(u) && u.agent.Up? && u.agent.stream.None? && u.agent.unsavedAck.None?
    ensures Enabled(u, Connect)
    ensures var c := Apply(u, Connect);
            && c.store == u.store && c.server == u.server && c.put == u.put && c.spool == Reconnected(u)
            && c.evicted == u.evicted && c.quarantined == u.quarantined
            && c.agent.stream == Some(Stream(u.nextStream, None)) && u.nextStream < c.nextStream
  {
    hide BatchQueue.Acknowledge;
  }

  /** Connect without losing sight of the two. */
  lemma {:induction false} ConnectBehind(s: State, before: Queue, b: MetricBatch, after: Queue, x: MetricBatch)
    returns (u: State, before': Queue, after': Queue)
    requires Behind(s, before, b, after, x) && AcksOk(s) && StreamsFresh(s) && !Committed(s.store, s.server, b)
    ensures Gets(s, u) && Idle(u) && StreamsFresh(u) && u.agent.stream.value.id < u.nextStream
    ensures Behind(u, before', b, after', x)
  {
    assert b in s.spool && x in s.spool;
    var left := LeaveStream(s);
    hide Gets, Idle, Committed, Acceptable, KeysApart, Acks;
    assert StreamsFresh(left);
    ConnectIsIdle(left);
    ConnectStays(left);
    GetsOn(s, left, Connect);
    u := Apply(left, Connect);
    before', after' := before, after;
    hide Apply, StreamsFresh;
    var r := left.agent.memory;
    if r.acknowledgedBootId != "" {
      var ack := (r.acknowledgedBootId, r.acknowledgedSequence);
      assert ack in Acks(left) by { MemoryAck(left); }
      assert PrunesStored(s, ack);
      before', after' := PruneKeepsBehind(s, u, before, b, after, x, ack);
    }
  }

  lemma {:induction false} MemoryAck(u: State)
    requires u.agent.Up? && u.agent.memory.acknowledgedBootId != ""
    ensures (u.agent.memory.acknowledgedBootId, u.agent.memory.acknowledgedSequence) in Acks(u)
  {
  }

  /** Reconnecting after the new batch is acknowledged prunes the overtaken one. */
  lemma {:induction false} ReconnectPrunes(s: State, u: State, b: MetricBatch, x: MetricBatch) returns (last: State)
    requires Gets(s, u) && Idle(u) && StreamsFresh(u) && b.bootId != ""
    requires u.agent.memory.acknowledgedBootId == b.bootId && u.agent.memory.acknowledgedSequence >= Last(b)
    requires x.bootId == b.bootId && Last(x) <= Last(b) && !Committed(u.store, u.server, x)
    ensures Gets(s, last) && x !in last.spool && !Committed(last.store, last.server, x)
  {
    hide Gets, Committed, Last, BatchQueue.Acknowledge, Thins;
    GetsOn(s, u, Disconnect);
    var left := Apply(u, Disconnect);
    assert StreamsFresh(left);
    ConnectStays(left);
    GetsOn(s, left, Connect);
    last := Apply(left, Connect);
    AcknowledgeThins(left.spool, b.bootId, left.agent.memory.acknowledgedSequence);
  }

  lemma {:induction false} BehindIsLost(s: State, before: Queue, b: MetricBatch, after: Queue, x: MetricBatch)
    requires Behind(s, before, b, after, x) && AcksOk(s) && StreamsFresh(s) && !Committed(s.store, s.server, b)
    requires x.bootId == b.bootId != "" && Last(x) <= Last(b)
    requires x in s.put && x !in s.evicted && x !in s.quarantined
    ensures !NeverLoses(s)
  {
    hide Gets, Idle, Committed, StreamsFresh, Last, Acks, AcksOk, NeverLoses, Reaches, Behind;
    var u, before', after' := ConnectBehind(s, before, b, after, x);
    u := DeliverUpTo(s, u, before', b, after', x);
    u := ReconnectPrunes(s, u, b, x);
    GetsGrows(s, u);
    ReachesItself(s);
    GetsReaches(s, s, u);
    LosesByReaching(s, u, x);
  }

  lemma {:induction false} ApartKeys(s: State, a: MetricBatch, b: MetricBatch)
    requires BatchesOk(s) && a in s.put && b in s.put && a != b
    ensures KeysApart(a, b)
  {
    assert Apart(a, b);
  }

  /** Where the overtaken batch is after the put. */
  lemma {:induction false} OvertakenIsAfter(s: State, evict: nat, at: nat, i: nat)
    requires BatchesOk(s) && SpoolOk(s) && evict + at <= i < |s.spool|
    ensures var rest, x := s.spool[evict..], s.spool[i];
            x in rest[at..] && x !in rest[..at] && x in s.put && rest == rest[..at] + rest[at..]
  {
    var rest, x := s.spool[evict..], s.spool[i];
    assert x in s.spool && x in s.put;
    forall j | evict <= j < evict + at ensures s.spool[j] != x {
      QueuedOnce(s, j, i);
    }
    hide BatchesOk, SpoolOk;
    assert rest[at..][i - evict - at] == x;
    forall j | 0 <= j < at ensures rest[..at][j] != x {
      assert rest[..at][j] == s.spool[evict + j];
    }
    assert rest == rest[..at] + rest[at..];
  }

  lemma {:induction false} PutQueueWasPut(s: State, step: Step, y: MetricBatch)
    requires SpoolOk(s) && step.Put? && Enabled(s, step) && y in Apply(s, step).spool
    ensures y in Apply(s, step).put
  {
    hide NewBatch, BootOrdered;
    EvictionAccounts(s.spool, step.evict);
    var rest := s.spool[step.evict..];
    assert rest == rest[..step.at] + rest[step.at..];
  }

  lemma {:induction false} PutIsBehind(s: State, step: Step, i: nat)
    requires Inv(s) && step.Put? && Enabled(s, step)
    requires step.evict + step.at <= i < |s.spool| && !Committed(s.store, s.server, s.spool[i])
    ensures var rest := s.spool[step.evict..];
            Behind(Apply(s, step), rest[..step.at], NewBatch(s, step), rest[step.at..], s.spool[i])
  {
    var u, b, x := Apply(s, step), NewBatch(s, step), s.spool[i];
    PutKeepsBatches(s, step);
    NewBatchIsNewest(s, step);
    OvertakenIsAfter(s, step.evict, step.at, i);
    hide Inv, NewBatch, Committed, KeysApart, BatchesOk, First, Last;
    forall y | y in u.spool ensures Acceptable(y) && (y == x || KeysApart(y, x)) {
      PutQueueWasPut(s, step, y);
      PutIsAcceptable(u, y);
      if y != x {
        ApartKeys(u, y, x);
      }
    }
  }

  lemma {:induction false} NewIsUncommitted(s: State, b: MetricBatch)
    requires Unused(s, First(b)) && b.bootId == s.boot && b.samples != []
    ensures !Committed(s.store, s.server, b)
  {
    hide First, Last, Clamp, Sendable, Acks;
    KeyWithin(b, b.samples[0]);
    assert KeyOf(s.server, b.bootId, b.samples[0]) !in s.store.samples;
    assert b.samples[0] in b.samples && !Stored(s.store, s.server, b.bootId, b.samples[0]);
  }

  lemma {:induction false} PutCanLose(s: State, step: Step)
    requires Inv(s) && step.Put? && Enabled(s, step) && !Lossless(s, step)
    ensures !NeverLoses(Apply(s, step))
  {
    var x :| x in s.spool && Overtaken(s, step.evict + step.at, x);
    var i :| step.evict + step.at <= i < |s.spool| && s.spool[i] == x;
    var u, b, rest := Apply(s, step), NewBatch(s, step), s.spool[step.evict..];
    PutIsBehind(s, step, i);
    NewBatchIsNewest(s, step);
    InvIsLossFree(s);
    NewBatchUnused(s, step);
    NewIsUncommitted(s, b);
    PutKeepsAcks(s, step);
    PutKeepsHistory(s, step);
    PutKeepsStreams(s, step);
    assert x in u.spool && x in s.put && Acceptable(x);
    assert Last(x) < First(b) <= Last(b);
    hide Inv, LossFree, NeverLoses, Committed, Behind, AcksOk, StreamsFresh, First, Last;
    BehindIsLost(u, rest[..step.at], b, rest[step.at..], x);
  }

  lemma {:induction false} PutKeepsStreams(s: State, step: Step)
    requires TrafficOk(s) && step.Put? && Enabled(s, step)
    ensures StreamsFresh(Apply(s, step))
  {
  }

  // ----- Collecting past the signed range -----

  predicate HasRows(st: Store, server: string, b: MetricBatch) {
    forall sample :: sample in b.samples ==> KeyOf(server, b.bootId, sample) in st.samples
  }

  /** No row holds this sample. */
  predicate Lacks(st: Store, sample: Sample) {
    forall k :: k in st.samples ==> st.samples[k].sample != sample
  }

  lemma {:induction false} SavingWithout(st: Store, server: string, y: MetricBatch, sample: Sample,
                                         previous: NetworkSnapshot)
    requires Lacks(st, sample) && sample !in y.samples
    ensures var st' := SaveBatch(st, server, y, previous);
            && Lacks(st', sample) && HasRows(st', server, y)
            && forall x :: HasRows(st, server, x) ==> HasRows(st', server, x)
  {
    var st', sorted := SaveBatch(st, server, y, previous), SortBySequence(y.samples);
    SortedMembers(y.samples);
    SaveSamplesRows(st, server, y.bootId, sorted, previous);
    assert st' == SaveSamples(st, server, y.bootId, sorted, previous);
    hide SaveBatch, SaveSamples, SortBySequence, Clamp;
    forall k | k in st'.samples ensures st'.samples[k].sample != sample {
      if k !in st.samples {
        var i :| 0 <= i < |sorted| && KeyOf(server, y.bootId, sorted[i]) == k && st'.samples[k].sample == sorted[i];
        assert sorted[i] in y.samples;
      }
    }
    forall a | a in y.samples ensures KeyOf(server, y.bootId, a) in st'.samples {
      var i :| 0 <= i < |sorted| && sorted[i] == a;
    }
  }

  /** The queue is empty, all that was queued has rows, and the batch being collected is untouched. */
  ghost predicate Emptied(s: State, q: Queue, sample: Sample, last: State) {
    && last.spool == [] && last.server == s.server && last.boot == s.boot
    && s.agent.Up? && last.agent.Up? && last.agent.pending == s.agent.pending && last.agent.unsaved == s.agent.unsaved
    && Lacks(last.store, sample) && StreamsFresh(last)
    && forall y :: y in q ==> HasRows(last.store, s.server, y)
  }

  lemma {:induction false} DeliverStoring(s: State, u: State, sample: Sample) returns (last: State)
    requires Gets(s, u) && Idle(u) && AllAcceptable(u.spool) && StreamsFresh(u)
    requires u.agent.stream.value.id < u.nextStream
    requires Lacks(u.store, sample) && forall y :: y in u.spool ==> sample !in y.samples
    ensures Gets(s, last) && Emptied(u, u.spool, sample, last)
    ensures forall y :: HasRows(u.store, u.server, y) ==> HasRows(last.store, u.server, y)
    decreases |u.spool|
  {
    assert u.agent.Up?;
    hide Gets, Idle, Delivered, Acceptable, StreamsFresh, Lacks, HasRows, SaveBatch, Last;
    last := u;
    if u.spool != [] {
      assert u.spool[0] in u.spool;
      SavingWithout(u.store, u.server, u.spool[0], sample, FIRST_READING);
      DeliveredIsIdle(u);
      Deliver(s, u);
      last := DeliverStoring(s, Delivered(u), sample);
      forall y | y in u.spool ensures HasRows(last.store, u.server, y) {
        assert y == u.spool[0] || y in u.spool[1..];
      }
    }
  }

  lemma {:induction false} CommittedHasRows(st: Store, server: string, b: MetricBatch)
    requires Committed(st, server, b)
    ensures HasRows(st, server, b)
  {
    assert forall sample :: sample in b.samples ==> Stored(st, server, b.bootId, sample);
  }

  lemma {:induction false} ReconnectKeepsRows(s: State, left: State)
    requires AcksOk(s) && LeftAlone(s, left) && left.agent.Up?
    ensures forall y :: y in Reconnected(left) ==> y in s.spool
    ensures forall y :: y in s.spool ==> y in Reconnected(left) || HasRows(s.store, s.server, y)
  {
    hide Acks, Committed, HasRows, BatchQueue.Acknowledge, Thins;
    var r := left.agent.memory;
    if r.acknowledgedBootId != "" {
      var ack := (r.acknowledgedBootId, r.acknowledgedSequence);
      MemoryAck(left);
      assert PrunesStored(s, ack);
      AcknowledgeThins(s.spool, ack.0, ack.1);
      forall y | y in s.spool && y !in Reconnected(left) ensures HasRows(s.store, s.server, y) {
        CommittedHasRows(s.store, s.server, y);
      }
    }
  }

  lemma {:induction false} DrainStoring(s: State, sample: Sample) returns (last: State)
    requires s.agent.Up? && AcksOk(s) && StreamsFresh(s) && AllAcceptable(s.spool)
    requires Lacks(s.store, sample) && forall y :: y in s.spool ==> sample !in y.samples
    ensures Gets(s, last) && Emptied(s, s.spool, sample, last)
  {
    var left := LeaveStream(s);
    assert StreamsFresh(left);
    hide Gets, Idle, Acceptable, Lacks, HasRows, Acks, AcksOk, Reconnected;
    ReconnectKeepsRows(s, left);
    ConnectIsIdle(left);
    ConnectStays(left);
    GetsOn(s, left, Connect);
    assert Apply(left, Connect).agent.pending == left.agent.pending &&
             Apply(left, Connect).agent.unsaved == left.agent.unsaved;
    assert Apply(left, Connect).boot == left.boot;
    var u := Apply(left, Connect);
    hide Apply, StreamsFresh;
    last := DeliverStoring(s, u, sample);
  }

  /** With nothing queued, putting what is pending is lossless; if it cannot be stored it is lost. */
  lemma {:induction false} PendingIsLost(s: State, u: State) returns (b: MetricBatch)
    requires Reaches(s, u) && Collecting(u) && u.agent.pending != [] && u.spool == [] && StreamsFresh(u)
    requires PositiveDistinct(u.agent.pending)
    requires var nb := MetricBatch("agent", u.boot, u.agent.pending, 0, 1);
             nb !in u.evicted && nb !in u.quarantined && Unstorable(u.store, u.server, nb)
    ensures !NeverLoses(s)
  {
    var put := Step.Put(0, 0, "agent", 0, 1);
    b := NewBatch(u, put);
    var last := Apply(u, put);
    assert last.spool == [b] && Elements(u.spool[..0]) == {};
    assert StreamsFresh(last) && AllAcceptable(last.spool);
    hide Reaches, Unstorable, NeverLoses;
    ReachesOn(s, u, put);
    UnstorableIsLost(s, last, b);
  }

  /** Some row of this boot is numbered at the top, or two pending samples meet there. */
  predicate TopIsTaken(st: Store, server: string, boot: string) {
    Key(server, boot, MAX_INT64) in st.samples
  }

  lemma {:induction false} TakenBlocks(st: Store, server: string, b: MetricBatch, sample: Sample)
    requires TopIsTaken(st, server, b.bootId) && Lacks(st, sample) && sample in b.samples && sample.sequence > MAX_INT64
    ensures Unstorable(st, server, b)
  {
    assert KeyOf(server, b.bootId, sample) == Key(server, b.bootId, MAX_INT64);
  }

  lemma {:induction false} MeetingBlocks(st: Store, server: string, b: MetricBatch, x: Sample, y: Sample)
    requires x in b.samples && y in b.samples && x.sequence == MAX_INT64 && y.sequence > MAX_INT64
    ensures Unstorable(st, server, b)
  {
    assert Clamp(x.sequence) == Clamp(y.sequence) && x != y;
  }

  lemma {:induction false} RowsTakeTop(st: Store, server: string, y: MetricBatch)
    requires HasRows(st, server, y) && y.samples != [] && Last(y) == MAX_INT64
    ensures TopIsTaken(st, server, y.bootId)
  {
    LastIsCarried(y);
    var carried :| carried in y.samples && carried.sequence == Last(y);
    assert KeyOf(server, y.bootId, carried) == Key(server, y.bootId, MAX_INT64);
  }

  /** From a state that has collected past the range, with the top taken or about to be, the batch is lost. */
  lemma {:induction false} PastRangeLoses(s: State, u: State, top: Sample)
    requires Reaches(s, u) && Collecting(u) && AcksOk(u) && StreamsFresh(u) && AllAcceptable(u.spool)
    requires top in u.agent.pending && top.sequence > MAX_INT64 && PositiveDistinct(u.agent.pending)
    requires Lacks(u.store, top) && forall y :: y in u.put ==> top !in y.samples
    requires (forall y :: y in u.spool ==> y in u.put) && u.evicted <= u.put && u.quarantined <= u.put
    requires || TopIsTaken(u.store, u.server, u.boot)
             || (exists y :: y in u.spool && y.bootId == u.boot && Last(y) == MAX_INT64)
             || (exists x :: x in u.agent.pending && x.sequence == MAX_INT64)
    ensures !NeverLoses(s)
  {
    hide Reaches, Gets, Acceptable, Lacks, HasRows, Acks, AcksOk, StreamsFresh, Unstorable, Last, TopIsTaken;
    hide NeverLoses;
    var last := DrainStoring(u, top);
    GetsReaches(s, u, last);
    GetsGrows(u, last);
    var b := MetricBatch("agent", u.boot, u.agent.pending, 0, 1);
    assert b !in u.put;
    if x :| x in u.agent.pending && x.sequence == MAX_INT64 {
      MeetingBlocks(last.store, last.server, b, x, top);
    } else {
      if y :| y in u.spool && y.bootId == u.boot && Last(y) == MAX_INT64 {
        assert Acceptable(y);
        SamplesOf(y);
        RowsTakeTop(last.store, last.server, y);
      } else {
        StillTaken(u, last);
      }
      TakenBlocks(last.store, last.server, b, top);
    }
    var lost := PendingIsLost(s, last);
  }

  lemma {:induction false} SamplesOf(b: MetricBatch)
    requires Acceptable(b)
    ensures b.samples != []
  {
  }

  lemma {:induction false} StillTaken(s: State, u: State)
    requires Grows(s, u) && TopIsTaken(s.store, s.server, s.boot)
    ensures TopIsTaken(u.store, u.server, s.boot)
  {
  }

  /** What collecting past the range changes, and what it does not. */
  lemma {:induction false} CollectedPastRange(s: State, step: Step) returns (top: Sample)
    requires Inv(s) && step.Collect? && Enabled(s, step) && step.sample.Some?
    requires s.agent.memory.lastSequence == MAX_INT64
    ensures var u := Apply(s, step);
            && top in u.agent.pending && top.sequence == MAX_INT64 + 1 && PositiveDistinct(u.agent.pending)
            && Collecting(u) && u.agent.pending == s.agent.pending + [top]
            && u.spool == s.spool && u.requests == s.requests && u.store == s.store && u.server == s.server
            && u.boot == s.boot
            && u.put == s.put && u.evicted == s.evicted && u.quarantined == s.quarantined && u.boots == s.boots
    ensures StreamsFresh(Apply(s, step)) && AllAcceptable(s.spool)
  {
    top := step.sample.value.(sequence := MAX_INT64 + 1);
    SpoolIsAcceptable(s);
    assert PendingOk(s, s.agent);
    hide BatchesOk, SpoolOk, NumberingOk, RecordsOk, StoreOk, HistoryOk, WasHead, Accounted;
    assert Apply(s, step).agent.pending[|s.agent.pending|] == top;
  }

  lemma {:induction false} InRange(s: State, top: Sample)
    requires BatchesOk(s) && StoreOk(s) && top.sequence > MAX_INT64
    ensures forall y :: y in s.put ==> top !in y.samples
    ensures Lacks(s.store, top)
  {
    forall y | y in s.put ensures top !in y.samples {
      if top in y.samples {
        SpanOfSample(s, y, top);
      }
    }
    hide BatchesOk, Committed;
    forall k | k in s.store.samples ensures s.store.samples[k].sample != top {
      assert Witnessed(s, k);
    }
  }

  /** A request under way is committed first, if it is the one that takes the top. */
  lemma {:induction false} CommitTakes(s: State, u: State, id: nat, top: Sample)
    requires QueuesOk(u) && RowsOk(u) && AcksOk(u) && OrderedUnstored(u.spool, u.store, u.server)
    requires Reaches(s, u) && Collecting(u) && Lacks(u.store, top)
    requires id in u.requests && top !in u.requests[id].samples
    ensures var step := Commit(id, FIRST_READING);
            && Enabled(u, step) && Reaches(s, Apply(u, step)) && AcksOk(Apply(u, step))
            && Lacks(Apply(u, step).store, top) && HasRows(Apply(u, step).store, u.server, u.requests[id])
            && u.requests[id].samples != []
  {
    var y := u.requests[id];
    assert y in u.requests.Values && y in Sendable(u) && Acceptable(y);
    CommitStores(u, Commit(id, FIRST_READING));
    StoresKeepsQueues(u, Apply(u, Commit(id, FIRST_READING)), y);
    SavingWithout(u.store, u.server, y, top, FIRST_READING);
    hide Reaches, QueuesOk, RowsOk, AcksOk, OrderedUnstored, Lacks, HasRows, SaveBatch, Stores, Sendable;
    ReachesOn(s, u, Commit(id, FIRST_READING));
  }

  lemma {:induction false} TakeTop(s: State, u: State, id: nat, top: Sample) returns (v: State)
    requires QueuesOk(u) && RowsOk(u) && AcksOk(u) && OrderedUnstored(u.spool, u.store, u.server)
    requires Reaches(s, u) && Collecting(u) && StreamsFresh(u) && Lacks(u.store, top)
    requires id in u.requests && top !in u.requests[id].samples && u.requests[id].bootId == u.boot
    requires Last(u.requests[id]) == MAX_INT64
    ensures Reaches(s, v) && Collecting(v) && v.agent.pending == u.agent.pending && v.spool == u.spool
    ensures v.boot == u.boot
    ensures v.put == u.put && v.evicted == u.evicted && v.quarantined == u.quarantined
    ensures AcksOk(v) && StreamsFresh(v) && Lacks(v.store, top) && TopIsTaken(v.store, v.server, v.boot)
  {
    CommitTakes(s, u, id, top);
    hide Reaches, QueuesOk, RowsOk, AcksOk, OrderedUnstored, Lacks, HasRows, SaveBatch, TopIsTaken, Last;
    v := Apply(u, Commit(id, FIRST_READING));
    RowsTakeTop(v.store, v.server, u.requests[id]);
  }

  lemma {:induction false} CollectedQueues(s: State, step: Step)
    requires Inv(s) && step.Collect? && Enabled(s, step)
    ensures var u := Apply(s, step);
            QueuesOk(u) && RowsOk(u) && AcksOk(u) && OrderedUnstored(u.spool, u.store, u.server)
  {
    var u := Apply(s, step);
    InvIsLossFree(s);
    hide Inv, QueuesOk, RowsOk, AcksOk, FlowOk, NumbersOk, OrderedUnstored, Sendable, Acks, Quiet, NothingLost;
    AcksShrink(s, step);
    SameQueue(s, u);
    QuietQueues(s, u);
    QuietAcks(s, u);
  }

  lemma {:induction false} CollectCanLose(s: State, step: Step)
    requires Inv(s) && step.Collect? && Enabled(s, step) && !Lossless(s, step)
    ensures !NeverLoses(Apply(s, step))
  {
    assert s.agent.memory.lastSequence == MAX_INT64;
    var u := Apply(s, step);
    var top := CollectedPastRange(s, step);
    InRange(s, top);
    CollectedQueues(s, step);
    ReachesItself(u);
    TopTaken(s);
    assert (forall y :: y in s.spool ==> y in s.put) && s.evicted <= s.put && s.quarantined <= s.put;
    forall b | b in s.requests.Values ensures b in s.put {
      SendableWerePut(s, b);
    }
    hide Inv, Lossless, Reaches, Lacks, TopIsTaken, NeverLoses, StreamsFresh, AllAcceptable, Collecting, Apply;
    hide QueuesOk, RowsOk, AcksOk, OrderedUnstored, PositiveDistinct, Last, TopIsFree;
    if id :| id in s.requests && s.requests[id].bootId == s.boot && Last(s.requests[id]) == MAX_INT64 {
      assert s.requests[id] in s.requests.Values;
      var v := TakeTop(u, u, id, top);
      PastRangeLoses(u, v, top);
    } else {
      if x :| x in s.agent.pending && x.sequence == MAX_INT64 {
        assert x in u.agent.pending;
      }
      PastRangeLoses(u, u, top);
    }
  }

  /** What takes the top: a row, a queued batch, a request, or a pending sample. */
  lemma {:induction false} TopTaken(s: State)
    requires Inv(s) && s.agent.Up? && !TopIsFree(s) && s.agent.memory.lastSequence == MAX_INT64
    ensures || TopIsTaken(s.store, s.server, s.boot)
            || (exists y :: y in s.spool && y.bootId == s.boot && Last(y) == MAX_INT64)
            || (exists id :: id in s.requests && s.requests[id].bootId == s.boot && Last(s.requests[id]) == MAX_INT64)
            || (exists x :: x in s.agent.pending && x.sequence == MAX_INT64)
  {
    if k :| k in s.store.samples && k.server == s.server && k.bootId == s.boot && k.sequence == MAX_INT64 {
      assert k == Key(s.server, s.boot, MAX_INT64);
    } else if b :| b in Sendable(s) && b.bootId == s.boot && Last(b) >= MAX_INT64 {
      SendableWerePut(s, b);
      PutIsAcceptable(s, b);
      if b !in s.spool {
        var id :| id in s.requests && s.requests[id] == b;
      }
    } else {
      var i :| 0 <= i < |s.agent.pending| && s.agent.pending[i].sequence >= MAX_INT64;
      assert s.agent.pending[i].sequence <= s.agent.memory.lastSequence;
      assert s.agent.pending[i] in s.agent.pending;
    }
  }

  // ----- Exactly -----

  /**
   * From any state that keeps the invariant, a step can lead to a silent loss if and only if it is not lossless: it
   * puts a batch ahead of an unstored one of its boot, crashes while the unsaved batch is gone from the spool but may
   * be stored, or collects past the signed range where the top of it is taken.
   */
  lemma {:induction false} LossExactly(s: State, step: Step)
    requires Inv(s) && Enabled(s, step)
    ensures NeverLoses(Apply(s, step)) <==> Lossless(s, step)
  {
    hide Inv, NeverLoses, LossFree, Apply;
    if Lossless(s, step) {
      InvIsLossFree(s);
      StepKeepsLossFree(s, step);
      LossFreeNeverLoses(Apply(s, step));
    } else {
      match step
      case Put(_, _, _, _, _) => PutCanLose(s, step);
      case Crash => CrashCanLose(s);
      case Collect(_) => CollectCanLose(s, step);
    }
  }

  /** Steps that are careful are lossless. */
  lemma {:induction false} CarefulIsLossless(s: State, step: Step)
    requires Enabled(s, step) && Careful(s, step)
    ensures Lossless(s, step)
  {
    hide Committed;
  }
}
