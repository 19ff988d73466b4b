/** Exactly which steps can lead to a loss, from every state that lossless runs keep. */
module PipelineLossAnywhere {
  import opened Wrappers
  import opened Telemetry
  import opened MetricStore
  import opened AgentIdentity
  import opened BatchQueue
  import opened Pipeline
  import opened PipelineSafety
  import opened PipelineLossFree
  import opened PipelineLossFreeSteps
  import opened PipelineProgress
  import opened PipelineLossExact

  /**
   * The same state with the history starting now: put is what is spooled. Lossless runs may use sequences again, so an
   * equal batch that left the spool long ago must not count for one that is spooled now or put later.
   */
  function FromNow(s: State): State {
    s.(put := Elements(s.spool), evicted := {}, quarantined := {}, refused := {})
  }

  /** Numbering has not reached the end of the signed range. */
  predicate InSignedRange(s: State) {
    s.agent.Up? ==> s.agent.memory.lastSequence < MAX_INT64
  }

  /** No part of the invariant but the last looks at the history. */
  lemma {:induction false} FromNowIsLossFree(s: State)
    requires LossFree(s)
    ensures LossFree(FromNow(s))
  {
    var u := FromNow(s);
    assert NothingLost(u);
    hide QueuesOk, RowsOk, AcksOk, FlowOk, NumbersOk, OrderedUnstored, Sendable, Acks, NothingLost, FromNow;
    FromNowIsQuiet(s);
    QuietQueues(s, u);
    AcksFromNow(s);
    FlowFromNow(s);
    NumbersFromNow(s);
  }

  lemma {:induction false} FromNowIsQuiet(s: State)
    ensures var u := FromNow(s); Quiet(s, u) && Acks(u) == Acks(s) && Sendable(u) == Sendable(s) && SameFlight(s, u)
  {
    SameQueue(s, FromNow(s));
    hide Quiet;
  }

  lemma {:induction false} AcksFromNow(s: State)
    requires AcksOk(s)
    ensures AcksOk(FromNow(s))
  {
    FromNowIsQuiet(s);
    hide AcksOk, Acks, Quiet, FromNow;
    QuietAcks(s, FromNow(s));
  }

  lemma {:induction false} FlowFromNow(s: State)
    requires FlowOk(s)
    ensures FlowOk(FromNow(s))
  {
    FromNowIsQuiet(s);
    hide FlowOk, Acks, Quiet, Sendable;
    QuietFlow(s, FromNow(s));
  }

  lemma {:induction false} NumbersFromNow(s: State)
    requires NumbersOk(s)
    ensures NumbersOk(FromNow(s))
  {
    FromNowIsQuiet(s);
    hide Acks, Quiet, Sendable, UsedUpTo, Unused, Highest;
    if s.agent.Up? {
      hide NumbersOk;
      QuietNumbers(s, FromNow(s));
    } else {
      QuietUsed(s, FromNow(s), ResumePoint(s.file, s.boot, Highest(s.spool, s.boot)), None);
    }
  }

  // ----- A put -----

  lemma {:induction false} FlowIsFresh(s: State)
    requires FlowOk(s)
    ensures StreamsFresh(s)
  {
  }

  /** The overtaken batch is behind the new one, and nowhere before it. */
  lemma {:induction false} OvertakenOnce(s: State, step: Step, i: nat)
    requires OrderedUnstored(s.spool, s.store, s.server) && step.Put? && Enabled(s, step)
    requires step.evict + step.at <= i < |s.spool| && !Committed(s.store, s.server, s.spool[i])
    requires First(s.spool[i]) <= Last(s.spool[i])
    ensures var rest, x := s.spool[step.evict..], s.spool[i];
            && x in rest[step.at..] && x !in rest[..step.at]
            && Apply(s, step).spool == rest[..step.at] + [NewBatch(s, step)] + rest[step.at..]
  {
    var rest, x := s.spool[step.evict..], s.spool[i];
    forall j | 0 <= j < i ensures s.spool[j] != x {
    }
    hide OrderedUnstored, Committed, NewBatch, First, Last;
    assert rest[step.at..][i - step.evict - step.at] == x;
    forall j | 0 <= j < step.at ensures rest[..step.at][j] != x {
      assert rest[..step.at][j] == s.spool[step.evict + j];
    }
  }

  lemma {:induction false} PutIsBehindAnywhere(s: State, step: Step, i: nat)
    requires LossFree(s) && step.Put? && Enabled(s, step)
    requires step.evict + step.at <= i < |s.spool| && s.spool[i].bootId == s.boot
    requires !Committed(s.store, s.server, s.spool[i])
    ensures var rest, b, x := s.spool[step.evict..], NewBatch(s, step), s.spool[i];
            && Behind(FromNow(Apply(s, step)), rest[..step.at], b, rest[step.at..], x)
            && Last(x) <= Last(b) && !Committed(s.store, s.server, b)
  {
    var b, x := NewBatch(s, step), s.spool[i];
    var u := Apply(s, step);
    PutFacts(s, step, i);
    hide *;
    FirstUpToLast(x);
    OvertakenOnce(s, step, i);
    QueuedApart(u, x);
    IsBehind(u, s.spool[step.evict..][..step.at], b, s.spool[step.evict..][step.at..], x);
  }

  lemma {:induction false} PutFacts(s: State, step: Step, i: nat)
    requires LossFree(s) && step.Put? && Enabled(s, step)
    requires step.evict + step.at <= i < |s.spool| && s.spool[i].bootId == s.boot
    ensures var b, x, u := NewBatch(s, step), s.spool[i], Apply(s, step);
            && Acceptable(x) && QueuesOk(u) && x in Sendable(u) && x != b && Last(x) <= Last(b)
            && !Committed(s.store, s.server, b) && u.store == s.store && u.server == s.server
            && OrderedUnstored(s.spool, s.store, s.server)
  {
    hide *;
    var b, x := NewBatch(s, step), s.spool[i];
    PutParts(s, step);
    QueuedIsSendable(s, i);
    PutKeepsQueues(s, step);
    NewBatchUnused(s, step);
    NewIsApart(s, b, x);
    NewIsUncommitted(s, b);
    OvertakenStays(s, step, i);
  }

  lemma {:induction false} PutParts(s: State, step: Step)
    requires LossFree(s) && step.Put? && Enabled(s, step)
    ensures QueuesOk(s) && RowsOk(s) && s.agent.Up? && PendingFresh(s, s.agent)
    ensures OrderedUnstored(s.spool, s.store, s.server)
    ensures var b, u := NewBatch(s, step), Apply(s, step);
            && b.bootId == s.boot && b.samples == s.agent.pending != []
            && u.store == s.store && u.server == s.server && (forall x :: x in u.spool ==> x in Sendable(u))
  {
    hide QueuesOk, RowsOk, PendingFresh, OrderedUnstored, AcksOk, FlowOk, NothingLost, NumbersUp;
  }

  lemma {:induction false} QueuedIsSendable(s: State, i: nat)
    requires QueuesOk(s) && i < |s.spool|
    ensures s.spool[i] in s.spool && s.spool[i] in Sendable(s) && Acceptable(s.spool[i])
  {
    hide Acceptable, KeysApart, KeysDistinct;
    assert s.spool[i] in Sendable(s);
  }

  lemma {:induction false} IsBehind(u: State, before: Queue, b: MetricBatch, after: Queue, x: MetricBatch)
    requires u.spool == before + [b] + after && x in after && x !in before && x != b
    requires !Committed(u.store, u.server, x)
    requires forall y :: y in u.spool ==> Acceptable(y) && (y == x || KeysApart(y, x))
    ensures Behind(FromNow(u), before, b, after, x)
  {
    hide Committed, Acceptable, KeysApart;
  }

  lemma {:induction false} FirstUpToLast(b: MetricBatch)
    requires Acceptable(b)
    ensures First(b) <= Last(b)
  {
    SpanIsCarried(b.samples);
  }

  lemma {:induction false} QueuedApart(u: State, x: MetricBatch)
    requires QueuesOk(u) && x in Sendable(u)
    ensures forall y :: y in u.spool ==> Acceptable(y) && (y == x || KeysApart(y, x))
  {
    hide Acceptable, KeysApart;
  }

  lemma {:induction false} PutCanLoseAnywhere(s: State, step: Step)
    requires LossFree(s) && step.Put? && Enabled(s, step) && !Lossless(s, step)
    ensures !NeverLoses(FromNow(Apply(s, step)))
  {
    var x :| x in s.spool && Overtaken(s, step.evict + step.at, x);
    var i :| step.evict + step.at <= i < |s.spool| && s.spool[i] == x;
    var u, b, rest := FromNow(Apply(s, step)), NewBatch(s, step), s.spool[step.evict..];
    PutIsBehindAnywhere(s, step, i);
    PutFollows(s, step);
    OvertakenStays(s, step, i);
    assert x in u.put && u.evicted == {} && u.quarantined == {};
    hide *;
    BehindIsLost(u, rest[..step.at], b, rest[step.at..], x);
  }

  lemma {:induction false} PutFollows(s: State, step: Step)
    requires LossFree(s) && step.Put? && Enabled(s, step)
    ensures var u := FromNow(Apply(s, step));
            && AcksOk(u) && StreamsFresh(u) && u.store == s.store && u.server == s.server
            && NewBatch(s, step).bootId == s.boot && s.boot != ""
  {
    assert AcksOk(s) && FlowOk(s) && PendingFresh(s, s.agent) && s.boot != "";
    FlowIsFresh(s);
    hide LossFree, AcksOk, FlowOk, PendingFresh;
    PutKeepsAcks(s, step);
    AcksFromNow(Apply(s, step));
  }

  lemma {:induction false} OvertakenStays(s: State, step: Step, i: nat)
    requires step.Put? && Enabled(s, step) && step.evict + step.at <= i < |s.spool|
    ensures s.spool[i] in Apply(s, step).spool
  {
    var rest := s.spool[step.evict..];
    assert rest[step.at..][i - step.evict - step.at] == s.spool[i];
    hide NewBatch;
  }

  // ----- A crash -----

  /** After the crash the batch is stored, or a request under way stores it now. */
  lemma {:induction false} StoreUnsavedAnywhere(s: State, b: MetricBatch) returns (v: State)
    requires QueuesOk(s) && RowsOk(s) && FlowOk(s) && Enabled(s, Crash) && MayBeStored(s, b)
    ensures var c := FromNow(Apply(s, Crash));
            && Reaches(c, v) && Committed(v.store, v.server, b)
            && v.agent.Down? && v.file == s.file && v.spool == s.spool && v.boot == s.boot
            && v.evicted == {} && v.quarantined == {} && StreamsFresh(v)
  {
    var c := FromNow(Apply(s, Crash));
    CrashedFromNow(s);
    ReachesItself(c);
    v := c;
    if !Committed(s.store, s.server, b) {
      var id :| id in s.requests && s.requests[id] == b;
      hide *;
      CommitsRequest(c, id);
      CommitStores(c, Commit(id, FIRST_READING));
      ReachesOn(c, c, Commit(id, FIRST_READING));
      v := Apply(c, Commit(id, FIRST_READING));
      StoresCommits(c, v, b);
    }
  }

  lemma {:induction false} CommitsRequest(s: State, id: nat)
    requires QueuesOk(s) && StreamsFresh(s) && id in s.requests
    ensures var step := Commit(id, FIRST_READING);
            && Enabled(s, step) && Lossless(s, step) && StreamsFresh(Apply(s, step))
            && var v := Apply(s, step);
               && v.agent == s.agent && v.file == s.file && v.spool == s.spool && v.boot == s.boot
               && v.evicted == s.evicted && v.quarantined == s.quarantined
  {
    RequestIsAcceptable(s, id);
    hide QueuesOk, Acceptable, SaveBatch;
  }

  lemma {:induction false} StoresCommits(s: State, s': State, b: MetricBatch)
    requires Stores(s, s', b)
    ensures Committed(s'.store, s'.server, b)
  {
  }

  lemma {:induction false} CrashedFromNow(s: State)
    requires QueuesOk(s) && RowsOk(s) && FlowOk(s) && s.agent.Up?
    ensures var c := FromNow(Apply(s, Crash));
            && QueuesOk(c) && RowsOk(c) && StreamsFresh(c) && c.requests == s.requests && c.agent.Down?
            && c.store == s.store && c.server == s.server && c.file == s.file && c.spool == s.spool && c.boot == s.boot
            && c.evicted == {} && c.quarantined == {}
  {
    FlowIsFresh(s);
    var c := FromNow(Apply(s, Crash));
    assert Sendable(c) == Sendable(s) && c.boots == s.boots;
    hide FlowOk, Sendable, Acceptable, KeysApart, KeysDistinct, Fits;
  }

  lemma {:induction false} RequestIsAcceptable(s: State, id: nat)
    requires QueuesOk(s) && id in s.requests
    ensures Acceptable(s.requests[id])
  {
    assert s.requests[id] in s.requests.Values && s.requests[id] in Sendable(s);
  }

  lemma {:induction false} ResumesBelow(s: State, b: MetricBatch)
    requires s.agent.Up? && NumbersUp(s, s.agent) && s.agent.unsaved == Some(b)
    requires b !in s.spool && !Recorded(s.file, b)
    ensures ResumePoint(s.file, s.boot, Highest(s.spool, s.boot)) < Last(b) <= s.agent.memory.lastSequence
    ensures b.bootId == s.boot && b.samples != []
  {
    forall x | x in s.spool && x.bootId == s.boot ensures Last(x) <= s.file.lastSequence {
      assert x in Sendable(s);
    }
  }

  lemma {:induction false} CrashCanLoseAnywhere(s: State)
    requires LossFree(s) && InSignedRange(s) && Enabled(s, Crash) && !Lossless(s, Crash)
    ensures !NeverLoses(FromNow(Apply(s, Crash)))
  {
    var b := s.agent.unsaved.value;
    assert QueuesOk(s) && RowsOk(s) && FlowOk(s) && NumbersUp(s, s.agent);
    ResumesBelow(s, b);
    SpooledIsAcceptable(s);
    var v := StoreUnsavedAnywhere(s, b);
    hide LossFree, QueuesOk, RowsOk, FlowOk, NumbersUp, Reaches, NeverLoses, Committed, AllAcceptable, StreamsFresh;
    hide Highest, First, Last;
    ReachesOn(FromNow(Apply(s, Crash)), v, Start);
    var u := Apply(v, Start);
    assert StreamsFresh(u) by { StartKeepsStreams(v); }
    ReissueLoses(FromNow(Apply(s, Crash)), u, b);
  }

  lemma {:induction false} SpooledIsAcceptable(s: State)
    requires QueuesOk(s)
    ensures AllAcceptable(s.spool)
  {
    assert forall b :: b in s.spool ==> b in Sendable(s);
  }

  // ----- Exactly -----

  /**
   * From every state that lossless runs keep, below the end of the signed range, some lossless run after the step loses
   * a batch that is spooled then or put later if and only if the step is not lossless.
   */
  lemma {:induction false} LossExactlyAnywhere(s: State, step: Step)
    requires LossFree(s) && InSignedRange(s) && Enabled(s, step)
    ensures NeverLoses(FromNow(Apply(s, step))) <==> Lossless(s, step)
  {
    if Lossless(s, step) {
      hide LossFree, NeverLoses, Lossless, Apply, FromNow;
      StepKeepsLossFree(s, step);
      FromNowIsLossFree(Apply(s, step));
      LossFreeNeverLoses(FromNow(Apply(s, step)));
    } else {
      assert step.Put? || step.Crash?;
      hide LossFree, NeverLoses, Lossless, Apply, FromNow;
      if step.Put? {
        PutCanLoseAnywhere(s, step);
      } else {
        CrashCanLoseAnywhere(s);
      }
    }
  }
}
