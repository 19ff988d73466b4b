/** Every lossless step keeps the pipeline free of losses. */
module PipelineLossFreeSteps {
  import opened Wrappers
  import opened Telemetry
  import opened MetricStore
  import opened AgentIdentity
  import opened BatchQueue
  import opened Pipeline
  import opened PipelineLossFree

  // ----- Steps that add nothing to send and store nothing -----

  /** s' can send and queue no more than s, and stores the same. */
  ghost predicate Quiet(s: State, s': State) {
    && s'.server == s.server && s'.store == s.store && s'.boot == s.boot && s'.boots == s.boots
    && Sendable(s') <= Sendable(s)
    && (forall x :: x in s'.spool ==> x in s.spool)
    && (OrderedUnstored(s.spool, s.store, s.server) ==> OrderedUnstored(s'.spool, s.store, s.server))
  }

  lemma {:induction false} QuietQueues(s: State, s': State)
    requires Quiet(s, s') && QueuesOk(s) && RowsOk(s) && OrderedUnstored(s.spool, s.store, s.server)
    ensures QueuesOk(s') && RowsOk(s') && OrderedUnstored(s'.spool, s'.store, s'.server)
  {
    hide Sendable, Fits, KeysApart, KeysDistinct, Acceptable, OrderedUnstored;
  }

  lemma {:induction false} QuietAcks(s: State, s': State)
    requires Quiet(s, s') && AcksOk(s)
    requires forall ack :: ack in Acks(s') ==> ack in Acks(s) || PrunesStored(s, ack)
    ensures AcksOk(s')
  {
    hide Sendable, Acks, OrderedUnstored, Committed, CoveredBy;
    forall ack | ack in Acks(s') ensures PrunesStored(s', ack) {
      assert PrunesStored(s, ack);
    }
  }

  lemma {:induction false} QuietUsed(s: State, s': State, n: nat, unsaved: Option<MetricBatch>)
    requires Quiet(s, s') && UsedUpTo(s, n, unsaved)
    requires forall ack :: ack in Acks(s') && ack.0 == s.boot ==>
               ack in Acks(s) || ack.1 <= n || (Below(ack.1, n, unsaved) && Committed(s.store, s.server, unsaved.value))
    ensures UsedUpTo(s', n, unsaved)
  {
    hide Sendable, Acks, OrderedUnstored, Committed, Last;
  }

  /** The batch in flight is the same, or none any more. */
  predicate SameFlight(s: State, s': State) {
    s'.agent.Up? && s'.agent.stream.Some? && s'.agent.stream.value.awaiting.Some? ==>
      s.agent.Up? && s.agent.stream.Some? && s.agent.stream.value.awaiting == s'.agent.stream.value.awaiting
  }

  lemma {:induction false} QuietUnused(s: State, s': State, n: nat)
    requires Quiet(s, s') && Unused(s, n) && SameFlight(s, s')
    requires forall ack :: ack in Acks(s') && ack.0 == s.boot ==> ack in Acks(s) || ack.1 < n
    ensures Unused(s', n)
  {
    hide Sendable, Acks, OrderedUnstored, Last;
  }

  lemma {:induction false} QuietForemost(s: State, s': State, b: MetricBatch)
    requires Quiet(s, s')
    ensures Foremost(s, b) ==> Foremost(s', b)
    ensures InFlight(s, b) ==> InFlight(s', b)
  {
    hide Sendable, OrderedUnstored, Committed, CoveredBy, SameFile;
  }

  /** The streams go on as they were, or the agent's own has ended or not begun. */
  lemma {:induction false} QuietFlow(s: State, s': State)
    requires Quiet(s, s') && FlowOk(s) && s.nextStream <= s'.nextStream
    requires forall id :: id in s'.requests ==> id in s.requests && s'.requests[id] == s.requests[id]
    requires forall id :: id in s'.replies ==>
               (id in s.replies && s'.replies[id] == s.replies[id])
               || (id in s.requests && id !in s'.requests && s'.replies[id].Rejection?)
    requires s'.agent.Up? ==>
               || (s'.agent.stream.None? && s'.agent.unsavedAck.None?)
               || (s.agent.Up? && s'.agent.stream == s.agent.stream
                   && (s'.agent.unsavedAck == s.agent.unsavedAck || s'.agent.unsavedAck.None?))
               || (s'.agent.stream == Some(Stream(s.nextStream, None)) && s'.agent.unsavedAck.None? &&
                   s.nextStream < s'.nextStream)
    ensures FlowOk(s')
  {
    forall id | id in s'.requests ensures Foremost(s', s'.requests[id]) {
      QuietForemost(s, s', s.requests[id]);
    }
    hide Quiet, Foremost, InFlight;
    if s'.agent.Up? && s'.agent.stream.Some? {
      var stream := s'.agent.stream.value;
      if stream.awaiting.Some? {
        QuietForemost(s, s', stream.awaiting.value);
      }
      assert s'.store == s.store && s'.server == s.server by { QuietTables(s, s'); }
      assert StreamFlow(s', stream, s'.agent.unsavedAck);
    }
  }

  lemma {:induction false} QuietTables(s: State, s': State)
    requires Quiet(s, s')
    ensures s'.store == s.store && s'.server == s.server
  {
  }

  /** Numbering is untouched. */
  lemma {:induction false} QuietNumbers(s: State, s': State)
    requires Quiet(s, s') && NumbersOk(s) && s.agent.Up? && s'.agent.Up?
    requires s'.file == s.file && s'.agent.memory == s.agent.memory
    requires s'.agent.pending == s.agent.pending && s'.agent.unsaved == s.agent.unsaved
    requires Acks(s') <= Acks(s) && SameFlight(s, s')
    ensures NumbersOk(s')
  {
    hide Sendable, Acks, OrderedUnstored, UsedUpTo, Unused;
    QuietUsed(s, s', s.agent.memory.lastSequence, None);
    QuietUsed(s, s', s.file.lastSequence, s.agent.unsaved);
    forall i | 0 <= i < |s.agent.pending| ensures Unused(s', s.agent.pending[i].sequence) {
      QuietUnused(s, s', s.agent.pending[i].sequence);
    }
  }

  lemma {:induction false} KeepsAll(s: State, s': State)
    requires NothingLost(s) && s'.put == s.put && s'.store == s.store && s'.server == s.server
    requires s.evicted <= s'.evicted && s.quarantined <= s'.quarantined
    requires forall b :: b in s.spool ==> Accounted(s', b)
    ensures NothingLost(s')
  {
    hide Committed;
    forall b | b in s'.put ensures Accounted(s', b) {
      assert Accounted(s, b);
    }
  }

  predicate SameTables(s: State, s': State) {
    && s'.spool == s.spool && s'.requests == s.requests
    && s'.server == s.server && s'.store == s.store && s'.boot == s.boot && s'.boots == s.boots
  }

  lemma {:induction false} SameQueue(s: State, s': State)
    requires SameTables(s, s')
    ensures Quiet(s, s')
  {
  }

  // ----- Thinning the queue -----

  lemma {:induction false} DropKeepsOrder(q: Queue, k: nat, store: Store, server: string)
    requires k <= |q| && OrderedUnstored(q, store, server)
    ensures OrderedUnstored(q[k..], store, server)
  {
    hide Committed, First, Last;
  }

  lemma {:induction false} RemoveKeepsOrder(q: Queue, b: MetricBatch, store: Store, server: string)
    requires OrderedUnstored(q, store, server)
    ensures OrderedUnstored(RemoveFile(q, b), store, server)
  {
    hide Committed, First, Last, IndexOf;
    var at := IndexOf(q, b);
    if at < |q| {
      var r := q[..at] + q[at + 1..];
      forall i, j | 0 <= i < j < |r| && r[i].bootId == r[j].bootId && !Committed(store, server, r[j])
        ensures Last(r[i]) < First(r[j])
      {
        assert r[i] == q[if i < at then i else i + 1] && r[j] == q[if j < at then j else j + 1];
      }
    }
  }

  lemma {:induction false} PruneKeepsUnstoredOrder(q: Queue, n: nat, bootId: string, through: nat, store: Store,
                                                   server: string)
    requires n <= |q| && OrderedUnstored(q, store, server)
    ensures OrderedUnstored(Prune(q, n, bootId, through), store, server)
  {
    hide CoveredBy, First, Last, Committed;
    if n > 0 {
      PruneKeepsUnstoredOrder(q, n - 1, bootId, through, store, server);
      if !CoveredBy(q[n - 1], bootId, through) {
        var front := Prune(q, n - 1, bootId, through);
        forall i | 0 <= i < |front| && front[i].bootId == q[n - 1].bootId && !Committed(store, server, q[n - 1])
          ensures Last(front[i]) < First(q[n - 1])
        {
          PruneMembers(q, n - 1, bootId, through, front[i]);
        }
        AppendKeepsUnstoredOrder(front, q[n - 1], store, server);
      }
    }
  }

  lemma {:induction false} AppendKeepsUnstoredOrder(q: Queue, b: MetricBatch, store: Store, server: string)
    requires OrderedUnstored(q, store, server)
    requires forall i :: 0 <= i < |q| && q[i].bootId == b.bootId && !Committed(store, server, b) ==>
               Last(q[i]) < First(b)
    ensures OrderedUnstored(q + [b], store, server)
  {
    hide Committed, First, Last;
  }

  // ----- The agent's steps -----

  /** Only a reply brings a new acknowledgement. */
  lemma {:induction false} AcksShrink(s: State, step: Step)
    requires Enabled(s, step) && !step.ReceiveAck?
    ensures Acks(Apply(s, step)) <= Acks(s)
  {
  }

  lemma {:induction false} StartResumes(s: State)
    requires Enabled(s, Start)
    ensures var s' := Apply(s, Start);
            && Acks(s') == Acks(s) && SameTables(s, s') && s'.agent.Up? && s'.agent.pending == []
            && s'.agent.unsaved.None?
            && s'.file.lastSequence == ResumePoint(s.file, s.boot, Highest(s.spool, s.boot))
            && s'.agent.memory == s'.file
  {
  }

  lemma {:induction false} StartKeepsNumbers(s: State)
    requires NumbersOk(s) && Enabled(s, Start)
    ensures NumbersOk(Apply(s, Start)) && Acks(Apply(s, Start)) == Acks(s)
  {
    var s' := Apply(s, Start);
    StartResumes(s);
    SameQueue(s, s');
    hide UsedUpTo, Sendable, Acks, Highest, Apply, ResumePoint, Unused, FlightUpTo, Quiet, SameTables;
    QuietUsed(s, s', s'.file.lastSequence, None);
  }

  lemma {:induction false} StartKeeps(s: State)
    requires LossFree(s) && Enabled(s, Start)
    ensures LossFree(Apply(s, Start))
  {
    var s' := Apply(s, Start);
    hide QueuesOk, RowsOk, AcksOk, FlowOk, NumbersOk, OrderedUnstored, Sendable, Acks, Quiet, NothingLost, Highest;
    hide Raise;
    AcksShrink(s, Start);
    SameQueue(s, s');
    StartKeepsNumbers(s);
    QuietQueues(s, s');
    QuietAcks(s, s');
    QuietFlow(s, s');
    KeepsAll(s, s');
  }

  lemma {:induction false} CollectKeeps(s: State, step: Step)
    requires LossFree(s) && step.Collect? && Enabled(s, step) && Lossless(s, step)
    ensures LossFree(Apply(s, step))
  {
    var s' := Apply(s, step);
    CollectKeepsNumbers(s, step);
    hide QueuesOk, RowsOk, AcksOk, FlowOk, NumbersOk, OrderedUnstored, Sendable, Acks, Quiet, NothingLost, Lossless;
    AcksShrink(s, step);
    SameQueue(s, s');
    QuietQueues(s, s');
    QuietAcks(s, s');
    QuietFlow(s, s');
    KeepsAll(s, s');
  }

  lemma {:induction false} NextIsUnused(s: State)
    requires QueuesOk(s) && RowsOk(s) && NumbersOk(s) && s.agent.Up?
    requires s.agent.memory.lastSequence < MAX_INT64 || TopIsFree(s)
    ensures Unused(s, s.agent.memory.lastSequence + 1)
    ensures forall i :: 0 <= i < |s.agent.pending| ==>
              Clamp(s.agent.pending[i].sequence) < Clamp(s.agent.memory.lastSequence + 1)
  {
    hide QueuesOk, KeysDistinct, Sendable, Acks, Last, Fits;
  }

  lemma {:induction false} UsedUpToMore(s: State, n: nat)
    requires UsedUpTo(s, n, None)
    ensures UsedUpTo(s, n + 1, None)
  {
    hide Sendable, Acks, Last;
  }

  lemma {:induction false} CollectKeepsNumbers(s: State, step: Step)
    requires LossFree(s) && step.Collect? && Enabled(s, step) && Lossless(s, step)
    ensures NumbersOk(Apply(s, step))
  {
    var s', n := Apply(s, step), s.agent.memory.lastSequence;
    hide QueuesOk, RowsOk, AcksOk, FlowOk, NumbersOk, OrderedUnstored, Sendable, Acks, Quiet, NothingLost, TopIsFree;
    AcksShrink(s, step);
    SameQueue(s, s');
    if step.sample.Some? {
      NextIsUnused(s);
    }
    hide Lossless;
    CollectedNumbers(s, s', step.sample.Some?);
  }

  lemma {:induction false} CollectedNumbers(s: State, s': State, more: bool)
    requires NumbersOk(s) && Quiet(s, s') && s.agent.Up? && s'.agent.Up? && Acks(s') <= Acks(s) && SameFlight(s, s')
    requires s'.file == s.file && s'.agent.unsaved == s.agent.unsaved
    requires s'.agent.memory == Issue(s.agent.memory, s.boot)
    requires var n := s.agent.memory.lastSequence + 1;
             if more
             then Unused(s, n) && |s'.agent.pending| == |s.agent.pending| + 1
                  && s'.agent.pending[..|s.agent.pending|] == s.agent.pending
                  && s'.agent.pending[|s.agent.pending|].sequence == n
                  && forall i :: 0 <= i < |s.agent.pending| ==> Clamp(s.agent.pending[i].sequence) < Clamp(n)
             else s'.agent.pending == s.agent.pending
    ensures NumbersOk(s')
  {
    hide Sendable, Acks, OrderedUnstored, UsedUpTo, Unused, Last;
    var n, count := s.agent.memory.lastSequence, |s.agent.pending|;
    UsedUpToMore(s, n);
    QuietUsed(s, s', n + 1, None);
    QuietUsed(s, s', s.file.lastSequence, s.agent.unsaved);
    forall i | 0 <= i < count ensures Unused(s', s.agent.pending[i].sequence) {
      QuietUnused(s, s', s.agent.pending[i].sequence);
    }
    if more {
      QuietUnused(s, s', n + 1);
    }
    forall i | 0 <= i < count ensures s'.agent.pending[i] == s.agent.pending[i] {
      assert more ==> s'.agent.pending[..count][i] == s'.agent.pending[i];
    }
  }

  lemma {:induction false} PersistKeeps(s: State)
    requires LossFree(s) && Enabled(s, PersistSequence)
    ensures LossFree(Apply(s, PersistSequence))
  {
    var s' := Apply(s, PersistSequence);
    hide QueuesOk, RowsOk, AcksOk, FlowOk, NumbersOk, OrderedUnstored, Sendable, Acks, Quiet, NothingLost;
    AcksShrink(s, PersistSequence);
    SameQueue(s, s');
    SavedNumbers(s, s');
    QuietQueues(s, s');
    QuietAcks(s, s');
    QuietFlow(s, s');
    KeepsAll(s, s');
  }

  /** The file has caught up with memory. */
  lemma {:induction false} SavedNumbers(s: State, s': State)
    requires NumbersOk(s) && s.agent.Up? && s'.agent.Up? && SameFlight(s, s')
    requires s'.spool == s.spool && s'.requests == s.requests
    requires s'.server == s.server && s'.store == s.store && s'.boot == s.boot && s'.boots == s.boots
    requires Acks(s') <= Acks(s)
    requires s'.file == s'.agent.memory && s'.agent.memory.bootId == s.agent.memory.bootId
    requires s'.agent.memory.lastSequence == s.agent.memory.lastSequence
    requires s'.agent.pending == s.agent.pending && (s'.agent.unsaved.None? || s'.agent.unsaved == s.agent.unsaved)
    ensures NumbersOk(s')
  {
    var n := s.agent.memory.lastSequence;
    hide Sendable, Acks, Last, Committed;
    SameQueue(s, s');
    assert UsedUpTo(s, n, s'.agent.unsaved);
    hide UsedUpTo, Unused, Quiet;
    QuietUsed(s, s', n, None);
    QuietUsed(s, s', n, s'.agent.unsaved);
    forall i | 0 <= i < |s.agent.pending| ensures Unused(s', s.agent.pending[i].sequence) {
      QuietUnused(s, s', s.agent.pending[i].sequence);
    }
  }

  lemma {:induction false} PutFailedKeeps(s: State, step: Step)
    requires LossFree(s) && step.PutFailed? && Enabled(s, step)
    ensures LossFree(Apply(s, step))
  {
    var s' := Apply(s, step);
    assert Acks(s') == Acks(s);
    EvictionAccounts(s.spool, step.evict);
    DroppedIsQuiet(s, s', step.evict);
    hide QueuesOk, RowsOk, AcksOk, FlowOk, OrderedUnstored, Sendable, Acks, Quiet, Elements;
    PutFailedKeepsNumbers(s, step);
    hide NumbersOk;
    QuietQueues(s, s');
    QuietAcks(s, s');
    QuietFlow(s, s');
    KeepsAll(s, s');
  }

  lemma {:induction false} DroppedIsQuiet(s: State, s': State, k: nat)
    requires k <= |s.spool| && s'.spool == s.spool[k..] && s'.requests == s.requests
    requires s'.server == s.server && s'.store == s.store && s'.boot == s.boot && s'.boots == s.boots
    ensures Quiet(s, s')
  {
    hide OrderedUnstored;
    if OrderedUnstored(s.spool, s.store, s.server) {
      DropKeepsOrder(s.spool, k, s.store, s.server);
    }
  }

  lemma {:induction false} PutFailedKeepsNumbers(s: State, step: Step)
    requires NumbersOk(s) && step.PutFailed? && Enabled(s, step) && Quiet(s, Apply(s, step))
    requires Acks(Apply(s, step)) == Acks(s)
    ensures NumbersOk(Apply(s, step))
  {
    var s' := Apply(s, step);
    hide Sendable, Acks, OrderedUnstored, UsedUpTo, Quiet;
    QuietUsed(s, s', s.agent.memory.lastSequence, None);
    QuietUsed(s, s', s.file.lastSequence, s.agent.unsaved);
  }

  lemma {:induction false} PrunedIsQuiet(s: State, s': State, ack: (string, nat))
    requires s'.spool == BatchQueue.Acknowledge(s.spool, ack.0, ack.1) && s'.requests == s.requests
    requires s'.server == s.server && s'.store == s.store && s'.boot == s.boot && s'.boots == s.boots
    ensures Quiet(s, s')
  {
    AcknowledgeThins(s.spool, ack.0, ack.1);
    hide OrderedUnstored, CoveredBy, Thins;
    if OrderedUnstored(s.spool, s.store, s.server) {
      PruneKeepsUnstoredOrder(s.spool, |s.spool|, ack.0, ack.1, s.store, s.server);
    }
  }

  lemma {:induction false} ConnectIsQuiet(s: State)
    requires AcksOk(s) && Enabled(s, Connect)
    ensures Quiet(s, Apply(s, Connect)) && Acks(Apply(s, Connect)) <= Acks(s)
    ensures forall b :: b in s.spool ==> Accounted(Apply(s, Connect), b)
  {
    var r, s' := s.agent.memory, Apply(s, Connect);
    assert Acks(s') <= Acks(s);
    if r.acknowledgedBootId == "" {
      SameQueue(s, s');
    } else {
      var ack := (r.acknowledgedBootId, r.acknowledgedSequence);
      assert ack in Acks(s) && PrunesStored(s, ack);
      PrunedIsQuiet(s, s', ack);
      AcknowledgeThins(s.spool, ack.0, ack.1);
    }
  }

  lemma {:induction false} ConnectKeeps(s: State)
    requires LossFree(s) && Enabled(s, Connect)
    ensures LossFree(Apply(s, Connect))
  {
    var s' := Apply(s, Connect);
    ConnectIsQuiet(s);
    hide QueuesOk, RowsOk, AcksOk, FlowOk, NumbersOk, OrderedUnstored, Sendable, Acks, Quiet, BatchQueue.Acknowledge;
    QuietQueues(s, s');
    QuietAcks(s, s');
    QuietFlow(s, s');
    QuietNumbers(s, s');
    KeepsAll(s, s');
  }

  lemma {:induction false} HeadIsForemost(s: State)
    requires QueuesOk(s) && OrderedUnstored(s.spool, s.store, s.server) && s.spool != []
    ensures InFlight(s, s.spool[0]) && s.spool[0] in Sendable(s)
  {
    var b := s.spool[0];
    assert b in s.spool;
    HeadSpan(s, b);
    forall x | x in s.spool && CoveredBy(x, b.bootId, Last(b)) ensures x == b || Committed(s.store, s.server, x) {
      var i :| 0 <= i < |s.spool| && s.spool[i] == x;
      HeadSpan(s, x);
    }
    hide Committed;
    forall x | x in s.spool && SameFile(x, b) ensures x == b {
      HeadSpan(s, x);
      assert x == b || KeysApart(x, b);
    }
  }

  lemma {:induction false} HeadSpan(s: State, b: MetricBatch)
    requires QueuesOk(s) && b in s.spool
    ensures First(b) <= Last(b) && b in Sendable(s) && b.bootId in s.boots
  {
    assert Acceptable(b);
  }

  lemma {:induction false} SendKeeps(s: State)
    requires LossFree(s) && Enabled(s, Send)
    ensures LossFree(Apply(s, Send))
  {
    var s' := Apply(s, Send);
    HeadIsForemost(s);
    assert Acks(s') == Acks(s);
    SendIsQuiet(s);
    hide QueuesOk, RowsOk, AcksOk, FlowOk, NumbersOk, OrderedUnstored, Sendable, Acks, Quiet, InFlight;
    QuietQueues(s, s');
    QuietAcks(s, s');
    SendKeepsFlow(s);
    SendKeepsNumbers(s);
    KeepsAll(s, s');
  }

  lemma {:induction false} SendIsQuiet(s: State)
    requires Enabled(s, Send)
    ensures Quiet(s, Apply(s, Send))
  {
    hide OrderedUnstored;
    assert s.spool[0] in s.spool;
  }

  lemma {:induction false} SendKeepsFlow(s: State)
    requires FlowOk(s) && Enabled(s, Send) && InFlight(s, s.spool[0]) && Quiet(s, Apply(s, Send))
    ensures FlowOk(Apply(s, Send))
  {
    var s' := Apply(s, Send);
    forall id | id in s'.requests ensures Foremost(s', s'.requests[id]) {
      QuietForemost(s, s', s'.requests[id]);
    }
    QuietForemost(s, s', s.spool[0]);
    hide Quiet, Foremost, InFlight;
    assert StreamFlow(s', s'.agent.stream.value, s'.agent.unsavedAck);
  }

  lemma {:induction false} ClampStrict(a: nat, b: nat)
    ensures Clamp(a) < Clamp(b) ==> a < b
    ensures a <= b ==> Clamp(a) <= Clamp(b)
  {
  }

  lemma {:induction false} SendPutsInFlight(s: State)
    requires Enabled(s, Send)
    ensures var a, a' := s.agent, Apply(s, Send).agent;
            && a.Up? && a'.Up? && a'.memory == a.memory && a'.pending == a.pending && a'.unsaved == a.unsaved
            && a'.stream.Some? && a'.stream.value.awaiting == Some(s.spool[0])
    ensures Apply(s, Send).file == s.file && Apply(s, Send).boot == s.boot
  {
  }

  lemma {:induction false} SendKeepsNumbers(s: State)
    requires NumbersOk(s) && Enabled(s, Send) && Quiet(s, Apply(s, Send)) && Acks(Apply(s, Send)) == Acks(s)
    requires s.spool[0] in Sendable(s)
    ensures NumbersOk(Apply(s, Send))
  {
    var s', h := Apply(s, Send), s.spool[0];
    SendPutsInFlight(s);
    hide Sendable, Acks, Last, Quiet, Committed, Unused, UsedUpTo, FlightUpTo, Apply, Enabled;
    forall i | 0 <= i < |s.agent.pending| ensures Unused(s', s.agent.pending[i].sequence) {
      SentUnused(s, s', s.agent.pending[i].sequence);
    }
    HeadUsed(s, h, s.agent.memory.lastSequence, None);
    HeadUsed(s, h, s.file.lastSequence, s.agent.unsaved);
    QuietUsed(s, s', s.agent.memory.lastSequence, None);
    QuietUsed(s, s', s.file.lastSequence, s.agent.unsaved);
  }

  lemma {:induction false} HeadUsed(s: State, b: MetricBatch, n: nat, unsaved: Option<MetricBatch>)
    requires UsedUpTo(s, n, unsaved) && b in Sendable(s)
    ensures FlightUpTo(s, b, n, unsaved)
  {
  }

  lemma {:induction false} SentUnused(s: State, s': State, n: nat)
    requires Unused(s, n) && Quiet(s, s') && Acks(s') == Acks(s) && s'.agent.Up? && s'.agent.stream.Some?
    requires s'.agent.stream.value.awaiting.Some? && s'.agent.stream.value.awaiting.value in Sendable(s)
    ensures Unused(s', n)
  {
    var h := s'.agent.stream.value.awaiting.value;
    ClampStrict(Last(h), n);
    hide Sendable, Acks, Last, OrderedUnstored;
  }

  // ----- The end of a stream -----

  lemma {:induction false} DisconnectKeeps(s: State)
    requires LossFree(s) && Enabled(s, Disconnect)
    ensures LossFree(Apply(s, Disconnect))
  {
    var s' := Apply(s, Disconnect);
    hide QueuesOk, RowsOk, AcksOk, FlowOk, NumbersOk, OrderedUnstored, Sendable, Acks, Quiet, NothingLost;
    AcksShrink(s, Disconnect);
    SameQueue(s, s');
    QuietQueues(s, s');
    QuietAcks(s, s');
    QuietFlow(s, s');
    QuietNumbers(s, s');
    KeepsAll(s, s');
  }

  /** The unsaved batch aside, the bound holds; and it holds for that batch, too, if n reaches it. */
  lemma {:induction false} SettledUsed(s: State, n: nat, m: nat, unsaved: Option<MetricBatch>)
    requires UsedUpTo(s, n, unsaved) && n <= m
    requires unsaved.Some? && unsaved.value in Sendable(s) ==> Last(unsaved.value) <= m
    requires unsaved.Some? && Committed(s.store, s.server, unsaved.value) ==> Last(unsaved.value) <= m
    ensures UsedUpTo(s, m, None)
  {
    hide Sendable, Acks, Committed, Last;
  }

  /** The file or the spool still reaches all that has been used. */
  lemma {:induction false} CrashKeepsNumbers(s: State)
    requires NumbersOk(s) && Enabled(s, Crash) && Lossless(s, Crash)
    ensures NumbersOk(Apply(s, Crash))
  {
    var s', n := Apply(s, Crash), ResumePoint(s.file, s.boot, Highest(s.spool, s.boot));
    hide Committed, Last, UsedUpTo, Acks, Unused, Quiet, OrderedUnstored;
    if s.agent.unsaved.Some? {
      var b := s.agent.unsaved.value;
      assert b in s.spool || Recorded(s.file, b) ==> Last(b) <= n;
    }
    SettledUsed(s, s.file.lastSequence, n, s.agent.unsaved);
    AcksShrink(s, Crash);
    SameQueue(s, s');
    QuietUsed(s, s', n, None);
  }

  lemma {:induction false} CrashKeeps(s: State)
    requires LossFree(s) && Enabled(s, Crash) && Lossless(s, Crash)
    ensures LossFree(Apply(s, Crash))
  {
    var s' := Apply(s, Crash);
    CrashKeepsNumbers(s);
    hide QueuesOk, RowsOk, AcksOk, FlowOk, NumbersOk, OrderedUnstored, Sendable, Acks, Quiet, NothingLost, Lossless;
    AcksShrink(s, Crash);
    SameQueue(s, s');
    QuietQueues(s, s');
    QuietAcks(s, s');
    QuietFlow(s, s');
    KeepsAll(s, s');
  }

  /** What a reboot leaves alone. */
  lemma {:induction false} RebootFrame(s: State, step: Step)
    requires step.Reboot? && Enabled(s, step)
    ensures var s' := Apply(s, step);
            && s'.server == s.server && s'.store == s.store && s'.spool == s.spool && s'.requests == s.requests
            && s'.replies == s.replies && s'.nextStream == s.nextStream && s'.agent == s.agent
            && s'.put == s.put && s'.evicted == s.evicted && s'.quarantined == s.quarantined
            && s'.boot == step.boot && s'.boots == s.boots + {step.boot}
            && Sendable(s') == Sendable(s) && Acks(s') == Acks(s)
  {
  }

  lemma {:induction false} RebootKeepsQueues(s: State, step: Step)
    requires QueuesOk(s) && RowsOk(s) && AcksOk(s) && step.Reboot? && Enabled(s, step)
    ensures var s' := Apply(s, step);
            QueuesOk(s') && RowsOk(s') && AcksOk(s')
  {
    var s' := Apply(s, step);
    RebootFrame(s, step);
    hide Apply, Sendable, Acks, Fits, KeysApart, KeysDistinct, Acceptable, Committed, CoveredBy;
    forall ack | ack in Acks(s') ensures PrunesStored(s', ack) {
      assert PrunesStored(s, ack);
    }
  }

  lemma {:induction false} RebootKeepsNumbers(s: State, step: Step)
    requires QueuesOk(s) && RowsOk(s) && AcksOk(s) && step.Reboot? && Enabled(s, step)
    ensures NumbersOk(Apply(s, step))
  {
    var s' := Apply(s, step);
    RebootFrame(s, step);
    hide Apply, Sendable, Acks, Fits, KeysApart, KeysDistinct, Acceptable, Highest, Last, CoveredBy, Committed;
    forall ack | ack in Acks(s') ensures ack.0 != s'.boot {
      assert PrunesStored(s, ack);
    }
  }

  lemma {:induction false} RebootKeeps(s: State, step: Step)
    requires LossFree(s) && step.Reboot? && Enabled(s, step)
    ensures LossFree(Apply(s, step))
  {
    var s' := Apply(s, step);
    RebootFrame(s, step);
    hide QueuesOk, RowsOk, AcksOk, NumbersOk, OrderedUnstored, Sendable, Acks, Apply, Committed, CoveredBy;
    RebootKeepsQueues(s, step);
    RebootKeepsNumbers(s, step);
    KeepsAll(s, s');
    forall id | id in s'.requests ensures Foremost(s', s'.requests[id]) {
      assert Foremost(s, s.requests[id]);
    }
  }

  // ----- The gateway's steps -----

  lemma {:induction false} FewerRequests(s: State, s': State)
    requires s'.spool == s.spool && s'.server == s.server && s'.store == s.store && s'.boot == s.boot
    requires s'.boots == s.boots
    requires forall id :: id in s'.requests ==> id in s.requests && s'.requests[id] == s.requests[id]
    ensures Quiet(s, s')
  {
    hide OrderedUnstored;
    forall b | b in s'.requests.Values ensures b in s.requests.Values {
      var id :| id in s'.requests && s'.requests[id] == b;
      assert s.requests[id] == b;
    }
  }

  lemma {:induction false} RefuseKeeps(s: State, step: Step)
    requires LossFree(s) && (step.Refuse? || step.Abandon?) && Enabled(s, step)
    ensures LossFree(Apply(s, step))
  {
    var s' := Apply(s, step);
    hide QueuesOk, RowsOk, AcksOk, FlowOk, NumbersOk, OrderedUnstored, Sendable, Acks, Quiet, NothingLost;
    AcksShrink(s, step);
    FewerRequests(s, s');
    QuietQueues(s, s');
    QuietAcks(s, s');
    QuietFlow(s, s');
    if s.agent.Up? {
      QuietNumbers(s, s');
    } else {
      DownNumbers(s, s');
    }
    KeepsAll(s, s');
  }

  lemma {:induction false} DownNumbers(s: State, s': State)
    requires Quiet(s, s') && NumbersOk(s) && s.agent.Down? && s'.agent.Down?
    requires s'.file == s.file && s'.spool == s.spool && Acks(s') <= Acks(s)
    ensures NumbersOk(s')
  {
    hide Sendable, Acks, UsedUpTo, Quiet, Highest;
    QuietUsed(s, s', ResumePoint(s.file, s.boot, Highest(s.spool, s.boot)), None);
    assert s'.boot == s.boot by { QuietBoot(s, s'); }
  }

  lemma {:induction false} QuietBoot(s: State, s': State)
    requires Quiet(s, s')
    ensures s'.boot == s.boot
  {
  }

  // ----- Committing -----

  /** Saving a batch whose rows, if any, are its own stores all of its samples. */
  lemma {:induction false} SavingStores(st: Store, server: string, b: MetricBatch, previous: NetworkSnapshot)
    requires Fits(st, server, b) && KeysDistinct(b.samples)
    ensures Committed(SaveBatch(st, server, b, previous), server, b)
  {
    var st', sorted := SaveBatch(st, server, b, previous), SortBySequence(b.samples);
    assert st' == SaveSamples(st, server, b.bootId, sorted, previous);
    SortedMembers(b.samples);
    SaveSamplesRows(st, server, b.bootId, sorted, previous);
    hide SaveBatch, SaveSamples, SortBySequence, Clamp;
    forall sample | sample in b.samples ensures Stored(st', server, b.bootId, sample) {
      var k := KeyOf(server, b.bootId, sample);
      assert sample in sorted;
      if k !in st.samples {
        var i :| 0 <= i < |sorted| && KeyOf(server, b.bootId, sorted[i]) == k && st'.samples[k].sample == sorted[i];
        assert sorted[i] in b.samples;
      }
    }
  }

  /** What saving a batch does to the rows: the old ones stay, the new ones carry its keys. */
  ghost predicate Saves(st: Store, st': Store, server: string, b: MetricBatch) {
    && (forall k :: k in st.samples ==> k in st'.samples && st'.samples[k] == st.samples[k])
    && (forall k :: k in st'.samples && k !in st.samples ==>
          exists sample :: sample in b.samples && KeyOf(server, b.bootId, sample) == k)
    && Committed(st', server, b)
  }

  lemma {:induction false} SavingSaves(st: Store, server: string, b: MetricBatch, previous: NetworkSnapshot)
    requires Fits(st, server, b) && KeysDistinct(b.samples)
    ensures Saves(st, SaveBatch(st, server, b, previous), server, b)
  {
    var st', sorted := SaveBatch(st, server, b, previous), SortBySequence(b.samples);
    assert st' == SaveSamples(st, server, b.bootId, sorted, previous);
    SavingStores(st, server, b, previous);
    SortedMembers(b.samples);
    SaveSamplesRows(st, server, b.bootId, sorted, previous);
    hide SaveBatch, SaveSamples, SortBySequence, Clamp, Committed;
    forall k | k in st'.samples && k !in st.samples
      ensures exists sample :: sample in b.samples && KeyOf(server, b.bootId, sample) == k
    {
      var i :| 0 <= i < |sorted| && KeyOf(server, b.bootId, sorted[i]) == k && st'.samples[k].sample == sorted[i];
      assert sorted[i] in b.samples;
    }
  }

  lemma {:induction false} SavesKeepsCommitted(st: Store, st': Store, server: string, b: MetricBatch, x: MetricBatch)
    requires Saves(st, st', server, b)
    ensures Committed(st, server, x) ==> Committed(st', server, x)
  {
    if Committed(st, server, x) {
      forall sample | sample in x.samples ensures Stored(st', server, x.bootId, sample) {
        assert Stored(st, server, x.bootId, sample);
      }
    }
  }

  lemma {:induction false} KeyWithin(b: MetricBatch, sample: Sample)
    requires b.samples != [] && sample in b.samples
    ensures Clamp(First(b)) <= Clamp(sample.sequence) <= Clamp(Last(b))
  {
  }

  /** A new row lies within the saved batch. */
  lemma {:induction false} NewRow(st: Store, st': Store, server: string, b: MetricBatch, k: Key)
    requires Saves(st, st', server, b) && b.samples != [] && k in st'.samples && k !in st.samples
    ensures k.server == server && k.bootId == b.bootId && Clamp(First(b)) <= k.sequence <= Clamp(Last(b)) <= MAX_INT64
  {
    var sample :| sample in b.samples && KeyOf(server, b.bootId, sample) == k;
    KeyWithin(b, sample);
  }

  lemma {:induction false} SavesKeepsFit(st: Store, st': Store, server: string, b: MetricBatch, x: MetricBatch)
    requires Saves(st, st', server, b) && b.samples != [] && x.samples != [] && (x == b || KeysApart(x, b))
    requires Fits(st, server, x)
    ensures Fits(st', server, x)
  {
    hide First, Last, Clamp;
    if x != b {
      forall sample | sample in x.samples && KeyOf(server, x.bootId, sample) in st'.samples
        ensures Stored(st', server, x.bootId, sample)
      {
        var k := KeyOf(server, x.bootId, sample);
        KeyWithin(x, sample);
        if k !in st.samples {
          NewRow(st, st', server, b, k);
        }
        assert Stored(st, server, x.bootId, sample);
      }
    }
  }

  /** s' stores the batch and takes it off its request. */
  ghost predicate Stores(s: State, s': State, b: MetricBatch) {
    && s'.server == s.server && s'.boot == s.boot && s'.boots == s.boots && s'.spool == s.spool
    && Sendable(s') <= Sendable(s) && Acks(s') <= Acks(s)
    && b in Sendable(s) && b.samples != [] && b.bootId in s.boots
    && Saves(s.store, s'.store, s.server, b)
  }

  lemma {:induction false} CommitStores(s: State, step: Step)
    requires QueuesOk(s) && RowsOk(s) && step.Commit? && Enabled(s, step)
    ensures Stores(s, Apply(s, step), s.requests[step.id])
  {
    var s', b := Apply(s, step), s.requests[step.id];
    assert b in s.requests.Values && b in Sendable(s);
    hide SaveBatch, Saves;
    AcksShrink(s, step);
    SavingSaves(s.store, s.server, b, step.previous);
    forall x | x in s'.requests.Values ensures x in s.requests.Values {
      var id :| id in s'.requests && s'.requests[id] == x;
      assert s.requests[id] == x;
    }
  }

  lemma {:induction false} StoresKeepsQueues(s: State, s': State, b: MetricBatch)
    requires Stores(s, s', b) && QueuesOk(s) && RowsOk(s) && AcksOk(s) && OrderedUnstored(s.spool, s.store, s.server)
    ensures QueuesOk(s') && AcksOk(s') && OrderedUnstored(s'.spool, s'.store, s'.server)
  {
    hide Sendable, Acks, Committed, Saves, KeysApart, KeysDistinct, Acceptable, Fits, First, Last, CoveredBy;
    forall x ensures Committed(s.store, s.server, x) ==> Committed(s'.store, s'.server, x) {
      SavesKeepsCommitted(s.store, s'.store, s.server, b, x);
    }
    forall ack | ack in Acks(s') ensures PrunesStored(s', ack) {
      assert PrunesStored(s, ack);
    }
  }

  lemma {:induction false} StoresKeepsRows(s: State, s': State, b: MetricBatch)
    requires Stores(s, s', b) && QueuesOk(s) && RowsOk(s)
    ensures RowsOk(s')
  {
    hide Sendable, Acks, Committed, KeysDistinct, Fits, First, Last;
    forall x | x in Sendable(s') ensures Fits(s'.store, s'.server, x) {
      assert Acceptable(x);
      SavesKeepsFit(s.store, s'.store, s.server, b, x);
    }
    hide QueuesOk;
    forall k | k in s'.store.samples && k.server == s'.server ensures k.bootId in s'.boots && k.sequence <= MAX_INT64 {
      if k !in s.store.samples {
        NewRow(s.store, s'.store, s.server, b, k);
      }
    }
  }

  lemma {:induction false} StoresKeepsUsed(s: State, s': State, b: MetricBatch, n: nat, unsaved: Option<MetricBatch>)
    requires Stores(s, s', b) && UsedUpTo(s, n, unsaved)
    ensures UsedUpTo(s', n, unsaved)
  {
    hide Sendable, Acks, Committed, First, Last;
    if unsaved.Some? {
      SavesKeepsCommitted(s.store, s'.store, s.server, b, unsaved.value);
    }
    forall k | k in s'.store.samples && k.server == s.server && k.bootId == s.boot
      ensures k.sequence <= n || (Below(k.sequence, n, unsaved) && Committed(s'.store, s.server, unsaved.value))
    {
      if k !in s.store.samples {
        NewRow(s.store, s'.store, s.server, b, k);
      }
    }
  }

  lemma {:induction false} StoresKeepsUnused(s: State, s': State, b: MetricBatch, n: nat)
    requires Stores(s, s', b) && Unused(s, n) && SameFlight(s, s')
    ensures Unused(s', n)
  {
    hide Sendable, Acks, Committed, First, Last, Clamp;
    forall k | k in s'.store.samples && k.server == s.server && k.bootId == s.boot ensures k.sequence < Clamp(n) {
      if k !in s.store.samples {
        NewRow(s.store, s'.store, s.server, b, k);
      }
    }
  }

  lemma {:induction false} StoresKeepsForemost(s: State, s': State, b: MetricBatch, x: MetricBatch)
    requires Stores(s, s', b)
    ensures Foremost(s, x) ==> Foremost(s', x)
    ensures InFlight(s, x) ==> InFlight(s', x)
  {
    hide Sendable, Acks, Committed, CoveredBy, SameFile, First, Last;
    forall y ensures Committed(s.store, s.server, y) ==> Committed(s'.store, s'.server, y) {
      SavesKeepsCommitted(s.store, s'.store, s.server, b, y);
    }
  }

  lemma {:induction false} CommitKeepsStream(s: State, step: Step)
    requires FlowOk(s) && step.Commit? && Enabled(s, step) && Stores(s, Apply(s, step), s.requests[step.id])
    requires s.agent.Up? && s.agent.stream.Some?
    ensures var s' := Apply(s, step);
            s'.agent == s.agent && StreamFlow(s', s.agent.stream.value, s.agent.unsavedAck)
  {
    var s', b := Apply(s, step), s.requests[step.id];
    var stream := s.agent.stream.value;
    assert Committed(s'.store, s'.server, b);
    hide Stores, Committed, First, Last, SaveBatch, Foremost, InFlight;
    if stream.awaiting.Some? {
      StoresKeepsForemost(s, s', b, stream.awaiting.value);
      StillCommitted(s, s', b, stream.awaiting.value);
    }
  }

  lemma {:induction false} CommitKeepsFlow(s: State, step: Step)
    requires FlowOk(s) && step.Commit? && Enabled(s, step) && Stores(s, Apply(s, step), s.requests[step.id])
    ensures FlowOk(Apply(s, step))
  {
    var s', b := Apply(s, step), s.requests[step.id];
    if s.agent.Up? && s.agent.stream.Some? {
      CommitKeepsStream(s, step);
    }
    assert s'.requests == s.requests - {step.id} && s'.replies.Keys == s.replies.Keys + {step.id};
    assert s'.agent == s.agent && s'.nextStream == s.nextStream;
    hide Stores, Committed, SaveBatch, Foremost, InFlight, StreamFlow, Apply, Enabled;
    forall id | id in s'.requests ensures Foremost(s', s'.requests[id]) {
      StoresKeepsForemost(s, s', b, s.requests[id]);
    }
  }

  lemma {:induction false} StillCommitted(s: State, s': State, b: MetricBatch, x: MetricBatch)
    requires Stores(s, s', b)
    ensures Committed(s.store, s.server, x) ==> Committed(s'.store, s'.server, x)
  {
    SavesKeepsCommitted(s.store, s'.store, s.server, b, x);
  }

  lemma {:induction false} CommitKeepsNumbers(s: State, step: Step)
    requires NumbersOk(s) && step.Commit? && Enabled(s, step) && Stores(s, Apply(s, step), s.requests[step.id])
    ensures NumbersOk(Apply(s, step))
  {
    var s', b := Apply(s, step), s.requests[step.id];
    hide Sendable, Acks, Committed, Last, SaveBatch, Stores, UsedUpTo, Unused, Highest;
    if s.agent.Down? {
      StoresKeepsUsed(s, s', b, ResumePoint(s.file, s.boot, Highest(s.spool, s.boot)), None);
    } else {
      StoresKeepsUsed(s, s', b, s.agent.memory.lastSequence, None);
      StoresKeepsUsed(s, s', b, s.file.lastSequence, s.agent.unsaved);
      forall i | 0 <= i < |s.agent.pending| ensures Unused(s', s.agent.pending[i].sequence) {
        StoresKeepsUnused(s, s', b, s.agent.pending[i].sequence);
      }
    }
  }

  lemma {:induction false} CommitKeepsAll(s: State, step: Step)
    requires NothingLost(s) && step.Commit? && Enabled(s, step) && Stores(s, Apply(s, step), s.requests[step.id])
    ensures NothingLost(Apply(s, step))
  {
    var s' := Apply(s, step);
    hide Sendable, Acks, Committed, SaveBatch, Saves;
    forall x | x in s'.put ensures Accounted(s', x) {
      assert Accounted(s, x);
      SavesKeepsCommitted(s.store, s'.store, s.server, s.requests[step.id], x);
    }
  }

  lemma {:induction false} CommitKeeps(s: State, step: Step)
    requires LossFree(s) && step.Commit? && Enabled(s, step)
    ensures LossFree(Apply(s, step))
  {
    var s', b := Apply(s, step), s.requests[step.id];
    hide QueuesOk, RowsOk, AcksOk, FlowOk, NumbersOk, OrderedUnstored, Sendable, Acks, NothingLost, Apply, Stores;
    CommitStores(s, step);
    StoresKeepsQueues(s, s', b);
    StoresKeepsRows(s, s', b);
    CommitKeepsFlow(s, step);
    CommitKeepsNumbers(s, step);
    CommitKeepsAll(s, step);
  }

  // ----- Replies -----

  /** Taking the file of the batch in flight out of the queue removes that batch alone. */
  lemma {:induction false} RemovedIsQuiet(s: State, s': State, b: MetricBatch)
    requires InFlight(s, b) && s'.spool == RemoveFile(s.spool, b) && s'.requests == s.requests
    requires s'.server == s.server && s'.store == s.store && s'.boot == s.boot && s'.boots == s.boots
    ensures Quiet(s, s')
    ensures forall x :: x in s.spool ==> x in s'.spool || x == b
  {
    RemoveThins(s.spool, b);
    hide OrderedUnstored, Thins, RemoveFile, SameFile, Foremost;
    if OrderedUnstored(s.spool, s.store, s.server) {
      RemoveKeepsOrder(s.spool, b, s.store, s.server);
    }
  }

  /** The reply is for the batch in flight. */
  lemma {:induction false} ReplyFitsFlight(s: State)
    requires FlowOk(s) && OnStream(s) && s.agent.stream.value.id in s.replies
    ensures var stream := s.agent.stream.value;
            stream.awaiting.Some? && InFlight(s, stream.awaiting.value)
            && Answers(s, s.replies[stream.id], stream.awaiting.value)
  {
  }

  lemma {:induction false} AckIsQuiet(s: State) returns (b: MetricBatch)
    requires FlowOk(s) && Enabled(s, ReceiveAck)
    ensures s.agent.stream.value.awaiting == Some(b) && InFlight(s, b) && Committed(s.store, s.server, b)
    ensures s.replies[s.agent.stream.value.id] == Ack(b.bootId, Last(b))
    ensures Quiet(s, Apply(s, ReceiveAck)) && forall x :: x in s.spool ==> x in Apply(s, ReceiveAck).spool || x == b
    ensures Acks(Apply(s, ReceiveAck)) <= Acks(s) + {(b.bootId, Last(b))}
  {
    ReplyFitsFlight(s);
    b := s.agent.stream.value.awaiting.value;
    hide FlowOk, Committed, First, RemoveFile, BatchQueue.Acknowledge, InFlight, Quiet;
    RemovedIsQuiet(s, Apply(s, ReceiveAck), b);
  }

  lemma {:induction false} OneMoreAckUsed(s: State, s': State, ack: (string, nat), n: nat, unsaved: Option<MetricBatch>)
    requires Quiet(s, s') && UsedUpTo(s, n, unsaved) && Acks(s') <= Acks(s) + {ack}
    requires ack.0 == s.boot ==>
               ack.1 <= n || (Below(ack.1, n, unsaved) && Committed(s.store, s.server, unsaved.value))
    ensures UsedUpTo(s', n, unsaved)
  {
    hide Sendable, Acks, Quiet, Committed, UsedUpTo, Below;
    QuietUsed(s, s', n, unsaved);
  }

  lemma {:induction false} OneMoreAckUnused(s: State, s': State, ack: (string, nat), n: nat)
    requires Quiet(s, s') && Unused(s, n) && SameFlight(s, s') && Acks(s') <= Acks(s) + {ack}
    requires ack.0 == s.boot ==> ack.1 < n
    ensures Unused(s', n)
  {
    hide Sendable, Acks, Quiet, Unused;
    QuietUnused(s, s', n);
  }

  lemma {:induction false} OneMoreAck(s: State, s': State, ack: (string, nat))
    requires Quiet(s, s') && AcksOk(s) && Acks(s') <= Acks(s) + {ack} && PrunesStored(s, ack)
    ensures AcksOk(s')
  {
    hide Sendable, Acks, Quiet, AcksOk, PrunesStored;
    QuietAcks(s, s');
  }

  lemma {:induction false} FlightUnused(s: State, n: nat)
    requires Unused(s, n) && s.agent.Up? && s.agent.stream.Some? && s.agent.stream.value.awaiting.Some?
    ensures s.agent.stream.value.awaiting.value.bootId == s.boot ==> Last(s.agent.stream.value.awaiting.value) < n
  {
  }

  /** What receiving an acknowledgement leaves alone. */
  ghost predicate AckFrame(s: State, s': State) {
    && s.agent.Up? && s'.agent.Up? && SameFlight(s, s')
    && s'.put == s.put && s'.store == s.store && s'.server == s.server && s'.evicted == s.evicted
    && s'.quarantined == s.quarantined && s'.file == s.file && s'.boot == s.boot
    && s'.agent.memory == s.agent.memory && s'.agent.pending == s.agent.pending && s'.agent.unsaved == s.agent.unsaved
  }

  lemma {:induction false} AckFrames(s: State)
    requires Enabled(s, ReceiveAck)
    ensures AckFrame(s, Apply(s, ReceiveAck))
  {
    hide AfterAck, CoveredBy;
  }

  lemma {:induction false} AckedNumbers(s: State, s': State, b: MetricBatch)
    requires NumbersOk(s) && Quiet(s, s') && AckFrame(s, s') && s.agent.stream.Some?
    requires s.agent.stream.value.awaiting == Some(b) && Committed(s.store, s.server, b)
    requires Acks(s') <= Acks(s) + {(b.bootId, Last(b))}
    ensures NumbersOk(s')
  {
    hide Sendable, Acks, Committed, Last, Quiet, UsedUpTo, Unused;
    forall i | 0 <= i < |s.agent.pending| ensures Unused(s', s.agent.pending[i].sequence) {
      FlightUnused(s, s.agent.pending[i].sequence);
      OneMoreAckUnused(s, s', (b.bootId, Last(b)), s.agent.pending[i].sequence);
    }
    OneMoreAckUsed(s, s', (b.bootId, Last(b)), s.agent.memory.lastSequence, None);
    OneMoreAckUsed(s, s', (b.bootId, Last(b)), s.file.lastSequence, s.agent.unsaved);
  }

  lemma {:induction false} ReceiveAckKeepsFlow(s: State, b: MetricBatch)
    requires FlowOk(s) && Enabled(s, ReceiveAck) && Quiet(s, Apply(s, ReceiveAck))
    requires s.agent.stream.value.awaiting == Some(b)
    requires s.replies[s.agent.stream.value.id] == Ack(b.bootId, Last(b))
    ensures FlowOk(Apply(s, ReceiveAck))
  {
    var s' := Apply(s, ReceiveAck);
    hide Quiet, AfterAck, Foremost, InFlight;
    forall id | id in s'.requests ensures Foremost(s', s'.requests[id]) {
      QuietForemost(s, s', s.requests[id]);
    }
    assert StreamFlow(s', s'.agent.stream.value, s'.agent.unsavedAck);
  }

  lemma {:induction false} AckPrunesStored(s: State, b: MetricBatch)
    requires InFlight(s, b) && Committed(s.store, s.server, b)
    ensures PrunesStored(s, (b.bootId, Last(b)))
  {
  }

  lemma {:induction false} AckedIsLossFree(s: State, s': State, b: MetricBatch)
    requires LossFree(s) && AckFrame(s, s') && Quiet(s, s') && FlowOk(s') && s.agent.stream.Some?
    requires s.agent.stream.value.awaiting == Some(b) && InFlight(s, b) && Committed(s.store, s.server, b)
    requires Acks(s') <= Acks(s) + {(b.bootId, Last(b))}
    requires forall x :: x in s.spool ==> x in s'.spool || x == b
    ensures LossFree(s')
  {
    hide QueuesOk, RowsOk, AcksOk, FlowOk, NumbersOk, OrderedUnstored, Sendable, Acks, Quiet, Committed, InFlight;
    hide NothingLost, PrunesStored, Last;
    AckPrunesStored(s, b);
    QuietQueues(s, s');
    OneMoreAck(s, s', (b.bootId, Last(b)));
    AckedNumbers(s, s', b);
    KeepsAll(s, s');
  }

  lemma {:induction false} FlowOfLossFree(s: State)
    requires LossFree(s)
    ensures FlowOk(s)
  {
    hide FlowOk, QueuesOk, RowsOk, AcksOk, NumbersOk, OrderedUnstored, NothingLost;
  }

  lemma {:induction false} ReceivesOnStream(s: State)
    requires Enabled(s, ReceiveAck)
    ensures s.agent.Up? && s.agent.stream.Some?
  {
  }

  lemma {:induction false} ReceiveAckKeeps(s: State)
    requires LossFree(s) && Enabled(s, ReceiveAck)
    ensures LossFree(Apply(s, ReceiveAck))
  {
    hide *;
    FlowOfLossFree(s);
    ReceivesOnStream(s);
    AckFrames(s);
    var b := AckIsQuiet(s);
    ReceiveAckKeepsFlow(s, b);
    AckedIsLossFree(s, Apply(s, ReceiveAck), b);
  }

  lemma {:induction false} SaveAckKeeps(s: State)
    requires LossFree(s) && Enabled(s, SaveAck)
    ensures LossFree(Apply(s, SaveAck))
  {
    var s' := Apply(s, SaveAck);
    hide QueuesOk, RowsOk, AcksOk, FlowOk, NumbersOk, OrderedUnstored, Sendable, Acks, Quiet, NothingLost;
    AcksShrink(s, SaveAck);
    SameQueue(s, s');
    SavedNumbers(s, s');
    QuietQueues(s, s');
    QuietAcks(s, s');
    QuietFlow(s, s');
    KeepsAll(s, s');
  }

  lemma {:induction false} RejectionIsQuiet(s: State)
    requires FlowOk(s) && Enabled(s, ReceiveRejection)
    ensures var s', b := Apply(s, ReceiveRejection), s.agent.stream.value.awaiting;
            b.Some? && Quiet(s, s') && forall x :: x in s.spool ==> x in s'.spool || x in s'.quarantined
  {
    ReplyFitsFlight(s);
    var s', b := Apply(s, ReceiveRejection), s.agent.stream.value.awaiting.value;
    hide FlowOk, Committed, First, Last, RemoveFile, InFlight, Quiet;
    if IndexOf(s.spool, b) < |s.spool| {
      RemovedIsQuiet(s, s', b);
    } else {
      SameQueue(s, s');
    }
  }

  lemma {:induction false} ReceiveRejectionKeeps(s: State)
    requires LossFree(s) && Enabled(s, ReceiveRejection)
    ensures LossFree(Apply(s, ReceiveRejection))
  {
    var s' := Apply(s, ReceiveRejection);
    RejectionIsQuiet(s);
    hide QueuesOk, RowsOk, AcksOk, FlowOk, NumbersOk, OrderedUnstored, Sendable, Acks, Quiet, NothingLost, RemoveFile;
    hide IndexOf;
    AcksShrink(s, ReceiveRejection);
    QuietQueues(s, s');
    QuietAcks(s, s');
    QuietFlow(s, s');
    QuietNumbers(s, s');
    KeepsAll(s, s');
  }

  // ----- Putting a batch -----

  lemma {:induction false} SpanIsCarried(samples: seq<Sample>)
    requires samples != []
    ensures exists a :: a in samples && a.sequence == FirstSequence(samples)
    ensures exists a :: a in samples && a.sequence == LastSequence(samples)
  {
    var n := |samples| - 1;
    assert samples[n] in samples;
    if n > 0 {
      SpanIsCarried(samples[..n]);
      assert forall a :: a in samples[..n] ==> a in samples;
    }
  }

  lemma {:induction false} RisingIsDistinct(samples: seq<Sample>)
    requires forall i, j :: 0 <= i < j < |samples| ==> Clamp(samples[i].sequence) < Clamp(samples[j].sequence)
    requires forall i :: 0 <= i < |samples| ==> samples[i].sequence > 0
    ensures PositiveDistinct(samples) && KeysDistinct(samples)
  {
    forall i, j | 0 <= i < j < |samples| ensures samples[i].sequence != samples[j].sequence {
      assert Clamp(samples[i].sequence) < Clamp(samples[j].sequence);
    }
    hide Clamp;
  }

  /** The new batch is numbered past everything used, and in range. */
  lemma {:induction false} NewBatchUnused(s: State, step: Step)
    requires s.agent.Up? && PendingFresh(s, s.agent) && step.Put? && Enabled(s, step)
    ensures var b := NewBatch(s, step);
            && Acceptable(b) && KeysDistinct(b.samples) && First(b) <= Last(b) <= s.agent.memory.lastSequence
            && Unused(s, First(b))
  {
    var b, pending := NewBatch(s, step), s.agent.pending;
    assert b.samples == pending;
    hide Unused, NewBatch, KeysDistinct, PositiveDistinct;
    RisingIsDistinct(pending);
    SpanIsCarried(pending);
    var first, last :| first in pending && first.sequence == FirstSequence(pending)
                       && last in pending && last.sequence == LastSequence(pending);
    var i, j :| 0 <= i < |pending| && pending[i] == first && 0 <= j < |pending| && pending[j] == last;
    assert Unused(s, pending[i].sequence);
  }

  /** The queue after a put: what is left after the eviction, and the new batch. */
  lemma {:induction false} PutQueue(s: State, step: Step)
    requires step.Put? && Enabled(s, step)
    ensures var s', b := Apply(s, step), NewBatch(s, step);
            && (forall x :: x in s'.spool ==> x == b || x in s.spool)
            && (forall x :: x in s.spool ==> x in s'.spool || x in s'.evicted)
            && b in s'.spool && Sendable(s') <= Sendable(s) + {b}
  {
    hide NewBatch;
    var rest := s.spool[step.evict..];
    EvictionAccounts(s.spool, step.evict);
    assert rest == rest[..step.at] + rest[step.at..];
  }

  lemma {:induction false} NewIsApart(s: State, b: MetricBatch, x: MetricBatch)
    requires Unused(s, First(b)) && b.bootId == s.boot && x in Sendable(s)
    ensures KeysApart(b, x)
    ensures x.bootId == b.bootId ==> Last(x) < First(b)
  {
    ClampStrict(Last(x), First(b));
  }

  lemma {:induction false} NewFits(s: State, b: MetricBatch)
    requires Unused(s, First(b)) && b.bootId == s.boot && b.samples != []
    ensures Fits(s.store, s.server, b)
  {
    hide First, Last, Clamp, Sendable, Acks;
    forall sample | sample in b.samples ensures KeyOf(s.server, b.bootId, sample) !in s.store.samples {
      KeyWithin(b, sample);
    }
  }

  lemma {:induction false} PutKeepsQueues(s: State, step: Step)
    requires QueuesOk(s) && RowsOk(s) && s.agent.Up? && PendingFresh(s, s.agent) && step.Put? && Enabled(s, step)
    ensures QueuesOk(Apply(s, step)) && RowsOk(Apply(s, step))
  {
    var s', b := Apply(s, step), NewBatch(s, step);
    NewBatchUnused(s, step);
    PutQueue(s, step);
    NewFits(s, b);
    hide Sendable, Acceptable, KeysDistinct, KeysApart, Fits, Unused, First, Last, PendingFresh;
    forall x | x in Sendable(s) ensures KeysApart(b, x) && KeysApart(x, b) {
      NewIsApart(s, b, x);
      ApartBothWays(b, x);
    }
  }

  lemma {:induction false} ApartBothWays(a: MetricBatch, b: MetricBatch)
    ensures KeysApart(a, b) == KeysApart(b, a)
  {
  }

  lemma {:induction false} PutKeepsUnstoredOrder(s: State, step: Step)
    requires s.agent.Up? && PendingFresh(s, s.agent) && OrderedUnstored(s.spool, s.store, s.server)
    requires step.Put? && Enabled(s, step) && Lossless(s, step)
    ensures OrderedUnstored(Apply(s, step).spool, s.store, s.server)
  {
    var q, b := s.spool, NewBatch(s, step);
    NewBatchUnused(s, step);
    forall x | x in q && x.bootId == s.boot ensures Last(x) < First(b) {
      NewIsApart(s, b, x);
    }
    forall i | step.evict + step.at <= i < |q| && q[i].bootId == s.boot ensures Committed(s.store, s.server, q[i]) {
      assert q[i] in q;
      assert !Overtaken(s, step.evict + step.at, q[i]);
    }
    hide PendingFresh, Lossless, First, Last, Committed, NewBatch;
    assert b.bootId == s.boot by { NewBatchBoot(s, step); }
    InsertedOrder(q, step.evict, b, step.at, s.store, s.server);
  }

  lemma {:induction false} NewBatchBoot(s: State, step: Step)
    requires step.Put? && Enabled(s, step)
    ensures NewBatch(s, step).bootId == s.boot
  {
  }

  lemma {:induction false} InsertedOrder(q: Queue, evict: nat, b: MetricBatch, at: nat, store: Store, server: string)
    requires evict + at <= |q| && OrderedUnstored(q, store, server)
    requires forall x :: x in q && x.bootId == b.bootId ==> Last(x) < First(b)
    requires forall i :: evict + at <= i < |q| && q[i].bootId == b.bootId ==> Committed(store, server, q[i])
    ensures OrderedUnstored(InsertAt(q[evict..], b, at), store, server)
  {
    hide First, Last, Committed;
    var rest := q[evict..];
    var r := InsertAt(rest, b, at);
    assert r[at] == b;
    forall i | 0 <= i < |r| && i != at ensures r[i] == q[evict + if i < at then i else i - 1] {
    }
    forall i, j | 0 <= i < j < |r| && r[i].bootId == r[j].bootId && !Committed(store, server, r[j])
      ensures Last(r[i]) < First(r[j])
    {
      if j == at {
        assert r[i] in q;
      }
    }
  }

  lemma {:induction false} PutKeepsAcks(s: State, step: Step)
    requires AcksOk(s) && s.agent.Up? && PendingFresh(s, s.agent) && step.Put? && Enabled(s, step)
    ensures AcksOk(Apply(s, step))
  {
    var s', b := Apply(s, step), NewBatch(s, step);
    NewBatchUnused(s, step);
    PutQueue(s, step);
    AcksShrink(s, step);
    hide Sendable, Acks, Acceptable, KeysDistinct, First, Last, Committed, PendingFresh, Clamp;
    forall ack | ack in Acks(s') ensures PrunesStored(s', ack) {
      assert PrunesStored(s, ack);
    }
  }

  lemma {:induction false} PutKeepsForemost(s: State, step: Step, x: MetricBatch)
    requires step.Put? && Enabled(s, step) && s.agent.Up? && PendingFresh(s, s.agent)
    requires x.bootId == s.boot ==> Last(x) < First(NewBatch(s, step))
    ensures Foremost(s, x) ==> Foremost(Apply(s, step), x)
    ensures InFlight(s, x) ==> InFlight(Apply(s, step), x)
  {
    NewBatchUnused(s, step);
    PutQueue(s, step);
    hide Sendable, Acks, Acceptable, KeysDistinct, First, Last, Committed, PendingFresh, Unused;
  }

  lemma {:induction false} PutKeepsFlow(s: State, step: Step)
    requires FlowOk(s) && s.agent.Up? && PendingFresh(s, s.agent) && step.Put? && Enabled(s, step)
    ensures FlowOk(Apply(s, step))
  {
    var s', b := Apply(s, step), NewBatch(s, step);
    NewBatchUnused(s, step);
    hide Acks, Acceptable, KeysDistinct, First, Last, Committed, PendingFresh, Foremost, InFlight;
    forall id | id in s'.requests ensures Foremost(s', s'.requests[id]) {
      assert s.requests[id] in Sendable(s);
      NewIsApart(s, b, s.requests[id]);
      PutKeepsForemost(s, step, s.requests[id]);
    }
    if s'.agent.stream.Some? {
      var stream := s'.agent.stream.value;
      if stream.awaiting.Some? {
        PutKeepsForemost(s, step, stream.awaiting.value);
      }
      assert StreamFlow(s', stream, s'.agent.unsavedAck);
    }
  }

  lemma {:induction false} PutUsed(s: State, step: Step, n: nat, unsaved: Option<MetricBatch>)
    requires UsedUpTo(s, n, None) && step.Put? && Enabled(s, step)
    requires Last(NewBatch(s, step)) <= n || unsaved == Some(NewBatch(s, step))
    ensures UsedUpTo(Apply(s, step), n, unsaved)
  {
    PutQueue(s, step);
    AcksShrink(s, step);
    hide Sendable, Acks, Last, Committed, Below;
  }

  lemma {:induction false} PutKeepsNumbersOk(s: State, step: Step)
    requires NumbersOk(s) && step.Put? && Enabled(s, step)
    ensures NumbersOk(Apply(s, step))
  {
    var s', b := Apply(s, step), NewBatch(s, step);
    NewBatchUnused(s, step);
    hide Acks, Acceptable, KeysDistinct, First, Last, Committed, Unused, UsedUpTo;
    PutUsed(s, step, s.agent.memory.lastSequence, None);
    PutUsed(s, step, s.file.lastSequence, Some(b));
  }

  lemma {:induction false} PutKeepsAll(s: State, step: Step)
    requires NothingLost(s) && step.Put? && Enabled(s, step)
    ensures NothingLost(Apply(s, step))
  {
    var s' := Apply(s, step);
    PutQueue(s, step);
    hide Committed, Sendable, NewBatch;
    forall b | b in s'.put ensures Accounted(s', b) {
      if b in s.put {
        assert Accounted(s, b);
      }
    }
  }

  lemma {:induction false} PutKeeps(s: State, step: Step)
    requires LossFree(s) && step.Put? && Enabled(s, step) && Lossless(s, step)
    ensures LossFree(Apply(s, step))
  {
    hide QueuesOk, RowsOk, AcksOk, FlowOk, OrderedUnstored, NothingLost, PendingFresh, NumbersUp, Lossless, Apply;
    assert PendingFresh(s, s.agent);
    PutKeepsQueues(s, step);
    PutKeepsUnstoredOrder(s, step);
    PutKeepsAcks(s, step);
    PutKeepsFlow(s, step);
    PutKeepsNumbersOk(s, step);
    PutKeepsAll(s, step);
    assert Apply(s, step).store == s.store && Apply(s, step).server == s.server by { PutKeepsStore(s, step); }
  }

  lemma {:induction false} PutKeepsStore(s: State, step: Step)
    requires step.Put? && Enabled(s, step)
    ensures Apply(s, step).store == s.store && Apply(s, step).server == s.server
  {
  }

  // ----- Every step -----

  lemma {:induction false} StepKeepsLossFree(s: State, step: Step)
    requires LossFree(s) && Enabled(s, step) && Lossless(s, step)
    ensures LossFree(Apply(s, step))
  {
    hide LossFree, Lossless, Apply;
    match step
    case Start => StartKeeps(s);
    case Collect(_) => CollectKeeps(s, step);
    case Put(_, _, _, _, _) => PutKeeps(s, step);
    case PutFailed(_) => PutFailedKeeps(s, step);
    case PersistSequence => PersistKeeps(s);
    case Connect => ConnectKeeps(s);
    case Send => SendKeeps(s);
    case Commit(_, _) => CommitKeeps(s, step);
    case Refuse(_) => RefuseKeeps(s, step);
    case Abandon(_) => RefuseKeeps(s, step);
    case ReceiveAck => ReceiveAckKeeps(s);
    case SaveAck => SaveAckKeeps(s);
    case ReceiveRejection => ReceiveRejectionKeeps(s);
    case Disconnect => DisconnectKeeps(s);
    case Crash => CrashKeeps(s);
    case Reboot(_) => RebootKeeps(s, step);
  }
}
