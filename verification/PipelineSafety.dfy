/** What every run of the pipeline guarantees, and exactly which steps put it at risk. */
module PipelineSafety {
  import opened Wrappers
  import opened Telemetry
  import opened MetricStore
  import opened AgentIdentity
  import opened BatchQueue
  import opened Pipeline

  lemma {:induction false} StepKeepsInv(s: State, step: Step)
    requires Inv(s) && Enabled(s, step) && Careful(s, step)
    ensures Inv(Apply(s, step))
  {
    match step
    case Start => StartKeepsInv(s);
    case Collect(_) => CollectKeepsInv(s, step);
    case Put(_, _, _, _, _) => PutKeepsInv(s, step);
    case PutFailed(_) => PutFailedKeepsInv(s, step);
    case PersistSequence => PersistKeepsInv(s);
    case Connect => ConnectKeepsInv(s);
    case Send => SendKeepsInv(s);
    case Commit(_, _) => CommitKeepsInv(s, step);
    case Refuse(_) => RefuseKeepsInv(s, step);
    case Abandon(_) => AbandonKeepsInv(s, step);
    case ReceiveAck => ReceiveAckKeepsInv(s);
    case SaveAck => SaveAckKeepsInv(s);
    case ReceiveRejection => ReceiveRejectionKeepsInv(s);
    case Disconnect => DisconnectKeepsInv(s);
    case Crash => CrashKeepsInv(s);
    case Reboot(_) => RebootKeepsInv(s, step);
  }

  lemma {:induction false} BackdatedPutBreaksOrder(s: State, step: Step)
    requires Inv(s) && step.Put? && Enabled(s, step) && !Careful(s, step)
    ensures !Inv(Apply(s, step))
  {
    var i :| step.evict + step.at <= i < |s.spool| && s.spool[i].bootId == s.boot;
    BackdatedPut(s, step, i);
  }

  lemma {:induction false} BackdatedPut(s: State, step: Step, i: nat)
    requires BatchesOk(s) && SpoolOk(s) && NumberingOk(s) && RecordsOk(s) && step.Put? && Enabled(s, step)
    requires step.evict + step.at <= i < |s.spool| && s.spool[i].bootId == s.boot
    ensures !SpoolOk(Apply(s, step))
  {
    NewBatchIsNewest(s, step);
    assert s.spool[i] in s.spool;
    PutSpan(s, s.spool[i]);
    hide BatchesOk, NumberingOk, RecordsOk, First, Last;
    InsertBefore(s.spool, step.evict, NewBatch(s, step), step.at, i);
  }

  lemma {:induction false} InsertBefore(q: Queue, evict: nat, b: MetricBatch, at: nat, i: nat)
    requires evict + at <= i < |q| && q[i].bootId == b.bootId && First(q[i]) <= Last(b)
    ensures !BootOrdered(InsertAt(q[evict..], b, at))
  {
    hide First, Last;
    var rest := q[evict..];
    var r := InsertAt(rest, b, at);
    assert rest[i - evict] == q[i];
    assert r[at] == b && r[i - evict + 1] == rest[i - evict];
    NotOrdered(r, at, i - evict + 1);
  }

  lemma {:induction false} NotOrdered(q: Queue, i: nat, j: nat)
    requires i < j < |q| && q[i].bootId == q[j].bootId && First(q[j]) <= Last(q[i])
    ensures !BootOrdered(q)
  {
  }

  lemma {:induction false} CrashInWindowForgets(s: State)
    requires Inv(s) && Enabled(s, Crash) && !Careful(s, Crash)
    ensures !Inv(Apply(s, Crash))
  {
    var b := s.agent.unsaved.value;
    HighestBelow(s, b);
    assert !Resumable(Apply(s, Crash), b);
    hide BatchesOk, SpoolOk, RecordsOk, TrafficOk, StoreOk, HistoryOk, Accounted, Resumable;
  }

  lemma {:induction false} HighestBelow(s: State, b: MetricBatch)
    requires BatchesOk(s) && SpoolOk(s) && NumberingOk(s) && s.agent.Up? && s.agent.unsaved == Some(b) && b !in s.spool
    ensures Highest(s.spool, s.boot) < Last(b)
  {
    PutSpan(s, b);
    assert Acceptable(b) && First(b) > 0;
    forall x | x in s.spool && x.bootId == s.boot ensures Last(x) < Last(b) {
      assert x in s.put && x != b;
    }
  }

  /** The conditions are exact for this invariant: a step keeps it if and only if it meets them. */
  lemma {:induction false} InvariantKeptExactly(s: State, step: Step)
    requires Inv(s) && Enabled(s, step)
    ensures Inv(Apply(s, step)) <==> Careful(s, step)
  {
    if Careful(s, step) {
      StepKeepsInv(s, step);
    } else {
      match step
      case Put(_, _, _, _, _) => BackdatedPutBreaksOrder(s, step);
      case Crash => CrashInWindowForgets(s);
      case Collect(_) =>
        assert Apply(s, step).agent.memory.lastSequence > MAX_INT64;
        assert !RecordSound(Apply(s, step), Apply(s, step).agent.memory);
    }
  }

  // ----- Runs -----

  predicate IsRun(states: seq<State>, steps: seq<Step>) {
    && |states| == |steps| + 1
    && Init(states[0])
    && forall i :: 0 <= i < |steps| ==> Enabled(states[i], steps[i]) && states[i + 1] == Apply(states[i], steps[i])
  }

  predicate CarefulRun(states: seq<State>, steps: seq<Step>) {
    && IsRun(states, steps)
    && forall i :: 0 <= i < |steps| ==> Careful(states[i], steps[i])
  }

  lemma {:induction false} RunInv(states: seq<State>, steps: seq<Step>, i: nat)
    requires CarefulRun(states, steps) && i < |states|
    ensures Inv(states[i])
  {
    if i == 0 {
      InitInv(states[0]);
    } else {
      RunInv(states, steps, i - 1);
      assert Enabled(states[i - 1], steps[i - 1]) && Careful(states[i - 1], steps[i - 1]);
      StepKeepsInv(states[i - 1], steps[i - 1]);
    }
  }

  /** No silent loss: whatever was put is still spooled, committed, evicted for room, or quarantined on a refusal. */
  lemma {:induction false} NoSilentLoss(states: seq<State>, steps: seq<Step>, i: nat, b: MetricBatch)
    requires CarefulRun(states, steps) && i < |states| && b in states[i].put
    ensures Accounted(states[i], b)
    ensures b in states[i].quarantined ==> b in states[i].refused
  {
    RunInv(states, steps, i);
  }

  /** Why a batch leaves the spool, step by step; the acknowledgement paths only ever remove committed batches. */
  lemma {:induction false} DepartureExplained(s: State, step: Step, b: MetricBatch)
    requires Inv(s) && Enabled(s, step)
    requires b in s.spool && b !in Apply(s, step).spool
    ensures match step
            case Connect => Committed(s.store, s.server, b)
            case ReceiveAck => Committed(s.store, s.server, b)
            case Put(_, _, _, _, _) => b in Apply(s, step).evicted
            case PutFailed(_) => b in Apply(s, step).evicted
            case ReceiveRejection => b in Apply(s, step).quarantined && b in s.refused
            case _ => false
  {
    match step
    case Connect => ConnectThins(s);
    case ReceiveAck => ReceiveAckKeepsInv(s);
    case Put(evict, at, _, _, _) => EvictedByPut(s.spool, evict, at, NewBatch(s, step), b);
    case PutFailed(evict) => EvictionAccounts(s.spool, evict);
    case ReceiveRejection =>
      ReplyIsForAwaiting(s);
      HotPathAgrees(s, s.agent.stream.value.awaiting.value);
    case _ =>
  }

  lemma {:induction false} EvictedByPut(q: Queue, evict: nat, at: nat, added: MetricBatch, b: MetricBatch)
    requires evict <= |q| && at <= |q| - evict && b in q && b !in InsertAt(q[evict..], added, at)
    ensures b in Elements(q[..evict])
  {
    EvictionAccounts(q, evict);
    var rest := q[evict..];
    assert rest == rest[..at] + rest[at..];
  }

  /** No sequence carried by a batch that reached the spool is ever issued again on the same boot. */
  lemma {:induction false} FreshSequences(states: seq<State>, steps: seq<Step>, i: nat, b: MetricBatch, sample: Sample)
    requires CarefulRun(states, steps) && i < |steps| && steps[i].Collect?
    requires b in states[i].put && b.bootId == states[i].boot && sample in b.samples
    ensures sample.sequence < states[i + 1].agent.memory.lastSequence
  {
    RunInv(states, steps, i);
    assert Enabled(states[i], steps[i]);
    assert sample.sequence <= Last(b);
  }

  /** So the spool never writes two batches to one file. */
  lemma {:induction false} SpoolFilesDistinct(states: seq<State>, steps: seq<Step>, i: nat, a: MetricBatch,
                                              b: MetricBatch)
    requires CarefulRun(states, steps) && i < |states|
    requires a in states[i].put && b in states[i].put && SameFile(a, b)
    ensures a == b
  {
    RunInv(states, steps, i);
    PutSpan(states[i], a);
    assert a == b || Apart(a, b);
  }

  /** Exactly once, end to end: each stored row is one sample of one batch that was put,
      and each rollup bucket is the fold of exactly its rows. */
  lemma {:induction false} StoredExactlyOnce(states: seq<State>, steps: seq<Step>, i: nat, k: Key)
    requires CarefulRun(states, steps) && i < |states| && k in states[i].store.samples
    ensures Valid(states[i].store)
    ensures exists b :: b in states[i].put && Offers(states[i].server, b, k, states[i].store.samples[k].sample)
    ensures forall b, sample :: b in states[i].put && Offers(states[i].server, b, k, sample) ==>
              sample == states[i].store.samples[k].sample
  {
    RunInv(states, steps, i);
    StoredOnce(states[i], k);
  }

  lemma {:induction false} StoredOnce(s: State, k: Key)
    requires BatchesOk(s) && StoreOk(s) && k in s.store.samples
    ensures exists b :: b in s.put && Offers(s.server, b, k, s.store.samples[k].sample)
    ensures forall b, sample :: b in s.put && Offers(s.server, b, k, sample) ==> sample == s.store.samples[k].sample
  {
    assert Witnessed(s, k);
    var b, sample :| b in s.put && sample in b.samples && KeyOf(s.server, b.bootId, sample) == k
      && s.store.samples[k].sample == sample;
    assert Acceptable(b);
    hide BatchesOk, StoreOk, First, Last;
    forall b', sample' | b' in s.put && Offers(s.server, b', k, sample')
      ensures sample' == sample
    {
      SpanOfSample(s, b, sample);
      SpanOfSample(s, b', sample');
      OneBatchPerSequence(s, b, b', sample.sequence);
      SameSample(b.samples, sample, sample');
    }
  }

  /** On every reachable queue the hot path and the cumulative acknowledgement agree, and every reply a stream
      receives is for its batch in flight. */
  lemma {:induction false} AcknowledgementPathsAgree(states: seq<State>, steps: seq<Step>, i: nat)
    requires CarefulRun(states, steps) && i < |steps| && steps[i] == ReceiveAck
    ensures var s := states[i];
            var stream := s.agent.stream.value;
            && stream.awaiting.Some?
            && s.replies[stream.id] == Ack(stream.awaiting.value.bootId, Last(stream.awaiting.value))
            && RemoveFile(s.spool, stream.awaiting.value)
               == Acknowledge(s.spool, stream.awaiting.value.bootId, Last(stream.awaiting.value))
  {
    var s := states[i];
    RunInv(states, steps, i);
    assert Enabled(s, steps[i]);
    ReplyIsForAwaiting(s);
    HotPathAgrees(s, s.agent.stream.value.awaiting.value);
    ReceiveAckKeepsInv(s);
  }
}
