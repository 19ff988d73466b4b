/** The pipeline never gets stuck: from every state that keeps the invariant, what is spooled can still be delivered. */
module PipelineProgress {
  import opened Wrappers
  import opened Telemetry
  import opened MetricStore
  import opened AgentIdentity
  import opened BatchQueue
  import opened Pipeline
  import opened PipelineSafety
  import opened PipelineCrashes
  import opened PipelineLossFree
  import opened PipelineLossFreeSteps

  const FIRST_READING: NetworkSnapshot := NetworkSnapshot(ZERO_TIME, 0, 0)

  /** A step that evicts, quarantines, crashes and collects nothing. */
  predicate Mild(step: Step) {
    !step.Collect? && !step.Put? && !step.PutFailed? && !step.Refuse? && !step.ReceiveRejection? && !step.Crash? &&
      !step.Reboot?
  }

  ghost predicate MildRun(s: State, states: seq<State>, steps: seq<Step>) {
    RunsFrom(s, states, steps) && forall i :: 0 <= i < |steps| ==> Mild(steps[i])
  }

  predicate SpooledOrCommitted(s: State, b: MetricBatch) {
    b in s.spool || Committed(s.store, s.server, b)
  }

  lemma {:induction false} StepKeepsCommitted(s: State, step: Step, b: MetricBatch)
    requires Inv(s) && Enabled(s, step) && Committed(s.store, s.server, b)
    ensures Committed(Apply(s, step).store, Apply(s, step).server, b)
  {
    hide Inv;
    if step.Commit? {
      CommitKeepsRows(s, step, b);
    }
  }

  lemma {:induction false} CommitKeepsRows(s: State, step: Step, b: MetricBatch)
    requires step.Commit? && Enabled(s, step) && Committed(s.store, s.server, b)
    ensures Committed(Apply(s, step).store, s.server, b)
  {
    var request := s.requests[step.id];
    hide SaveSamples, SaveSample;
    SaveSamplesRows(s.store, s.server, request.bootId, SortBySequence(request.samples), step.previous);
    forall sample | sample in b.samples ensures Stored(Apply(s, step).store, s.server, b.bootId, sample) {
      assert Stored(s.store, s.server, b.bootId, sample);
    }
  }

  /** Mild steps lose nothing: a queued batch stays queued or is committed. */
  lemma {:induction false} MildStepKeeps(s: State, step: Step, b: MetricBatch)
    requires Inv(s) && Enabled(s, step) && Mild(step) && SpooledOrCommitted(s, b)
    ensures SpooledOrCommitted(Apply(s, step), b)
  {
    hide Inv, Apply, Enabled, Committed;
    if b in s.spool && b !in Apply(s, step).spool {
      DepartureExplained(s, step, b);
    }
    if Committed(s.store, s.server, b) {
      StepKeepsCommitted(s, step, b);
    }
  }

  lemma {:induction false} MildStepSparesAll(s: State, step: Step)
    requires Enabled(s, step) && Mild(step)
    ensures Apply(s, step).evicted == s.evicted && Apply(s, step).quarantined == s.quarantined
  {
  }

  lemma {:induction false} MildRunKeeps(s: State, states: seq<State>, steps: seq<Step>, i: nat, b: MetricBatch)
    requires Inv(s) && MildRun(s, states, steps) && i < |states| && b in s.spool
    ensures SpooledOrCommitted(states[i], b)
  {
    hide Inv, Apply, Enabled, Careful, Committed;
    if i > 0 {
      MildRunKeeps(s, states, steps, i - 1, b);
      InvThroughout(s, states, steps, i - 1);
      MildStepKeeps(states[i - 1], steps[i - 1], b);
    }
  }

  // ----- Mild runs, by where they lead -----

  ghost predicate Gets(s: State, u: State) {
    exists states, steps :: MildRun(s, states, steps) && states[|steps|] == u
  }

  lemma {:induction false} GetsItself(s: State)
    ensures Gets(s, s)
  {
    assert MildRun(s, [s], []);
  }

  lemma {:induction false} CarefulAnyway(s: State, step: Step)
    requires Enabled(s, step) && Mild(step)
    ensures Careful(s, step)
  {
  }

  lemma {:induction false} GetsOn(s: State, u: State, step: Step)
    requires Gets(s, u) && Mild(step) && Enabled(u, step)
    ensures Gets(s, Apply(u, step))
  {
    CarefulAnyway(u, step);
    hide Apply, Enabled, Careful, Mild;
    var states, steps :| MildRun(s, states, steps) && states[|steps|] == u;
    var states', steps' := OneMoreStep(s, states, steps, step);
    assert MildRun(s, states', steps') && states'[|steps'|] == Apply(u, step);
  }

  // ----- Getting ready to send -----

  /** Connected, with nothing in flight. */
  predicate Idle(s: State) {
    && OnStream(s) && s.agent.stream.value.awaiting.None?
    && s.agent.stream.value.id !in s.requests && s.agent.stream.value.id !in s.replies
  }

  /** New streams are new to the requests and replies under way. */
  predicate StreamsFresh(s: State) {
    (forall id :: id in s.requests ==> id < s.nextStream) && (forall id :: id in s.replies ==> id < s.nextStream)
  }

  /** What leaving a stream keeps. */
  ghost predicate LeftAlone(s: State, u: State) {
    && u.server == s.server && u.boot == s.boot && u.boots == s.boots && u.spool == s.spool && u.store == s.store
    && u.requests == s.requests && u.replies == s.replies && u.nextStream == s.nextStream
    && u.put == s.put && u.evicted == s.evicted && u.quarantined == s.quarantined && Acks(u) <= Acks(s)
  }

  /** Start if need be, or finish saving an acknowledgement and leave the old stream. */
  lemma {:induction false} LeaveStream(s: State) returns (u: State)
    ensures Gets(s, u) && LeftAlone(s, u)
    ensures u.agent.Up? && u.agent.stream.None? && u.agent.unsavedAck.None?
    ensures s.agent.Up? ==> u.agent.pending == s.agent.pending && u.agent.unsaved == s.agent.unsaved
  {
    hide Gets, Acks;
    GetsItself(s);
    u := s;
    if s.agent.Down? {
      GetsOn(s, s, Start);
      AcksShrink(s, Start);
      u := Apply(s, Start);
    } else {
      if s.agent.unsavedAck.Some? {
        GetsOn(s, s, SaveAck);
        AcksShrink(s, SaveAck);
        u := Apply(s, SaveAck);
      }
      if s.agent.stream.Some? {
        GetsOn(s, u, Disconnect);
        AcksShrink(u, Disconnect);
        u := Apply(u, Disconnect);
      }
    }
  }

  /** What a reconnect leaves of the queue. */
  function Reconnected(s: State): Queue
    requires s.agent.Up?
  {
    var r := s.agent.memory;
    if r.acknowledgedBootId == "" then s.spool
    else BatchQueue.Acknowledge(s.spool, r.acknowledgedBootId, r.acknowledgedSequence)
  }

  lemma {:induction false} ConnectIsIdle(u: State)
    requires StreamsFresh(u) && u.agent.Up? && u.agent.stream.None? && u.agent.unsavedAck.None?
    ensures Enabled(u, Connect) && Idle(Apply(u, Connect)) && Apply(u, Connect).spool == Reconnected(u)
    ensures StreamsFresh(Apply(u, Connect))
  {
    hide BatchQueue.Acknowledge;
  }

  // ----- Delivering the head -----

  /** The state in which the acknowledgement of the head has arrived. */
  function Answered(s: State): State
    requires Idle(s) && s.spool != [] && Acceptable(s.spool[0])
  {
    var id := s.agent.stream.value.id;
    Apply(Apply(s, Send), Commit(id, FIRST_READING))
  }

  lemma {:induction false} AnsweredHead(s: State)
    requires Idle(s) && s.spool != [] && Acceptable(s.spool[0])
    ensures var b, u, stream := s.spool[0], Answered(s), s.agent.stream.value;
            u == s.(agent := s.agent.(stream := Some(stream.(awaiting := Some(b)))),
                    store := SaveBatch(s.store, s.server, b, FIRST_READING),
                    requests := s.requests[stream.id := b] - {stream.id},
                    replies := s.replies[stream.id := Ack(b.bootId, Last(b))])
  {
    hide SaveBatch, Last;
  }

  lemma {:induction false} ReceivedHead(s: State, u: State)
    requires Idle(s) && s.spool != []
    requires var b, stream := s.spool[0], s.agent.stream.value;
             && u.agent == s.agent.(stream := Some(stream.(awaiting := Some(b))))
             && stream.id in u.replies && u.replies[stream.id] == Ack(b.bootId, Last(b)) && u.spool == s.spool
    ensures Enabled(u, ReceiveAck)
    ensures var b, stream := s.spool[0], s.agent.stream.value;
            Apply(u, ReceiveAck) ==
            u.(agent := s.agent.(stream := Some(stream.(awaiting := None)), unsavedAck := Some((b.bootId, Last(b)))),
               spool := s.spool[1..], replies := u.replies - {stream.id})
  {
    assert RemoveFile(s.spool, s.spool[0]) == s.spool[1..];
    hide RemoveFile, Last, BatchQueue.Acknowledge;
  }

  function Delivered(s: State): State
    requires Idle(s) && s.spool != [] && Acceptable(s.spool[0])
  {
    AnsweredHead(s);
    ReceivedHead(s, Answered(s));
    Apply(Apply(Answered(s), ReceiveAck), SaveAck)
  }

  lemma {:induction false} DeliveredIsIdle(s: State)
    requires Idle(s) && s.spool != [] && Acceptable(s.spool[0])
    ensures var u := Delivered(s);
            && Idle(u) && u.spool == s.spool[1..] && u.server == s.server && u.boot == s.boot
            && u.store == SaveBatch(s.store, s.server, s.spool[0], FIRST_READING)
            && u.agent.memory == Acknowledged(s.agent.memory, s.spool[0].bootId, Last(s.spool[0]))
            && u.agent.pending == s.agent.pending && u.agent.unsaved == s.agent.unsaved
            && u.put == s.put && u.evicted == s.evicted && u.quarantined == s.quarantined
            && (StreamsFresh(s) && s.agent.stream.value.id < s.nextStream ==> StreamsFresh(u))
            && u.nextStream == s.nextStream && u.agent.stream == s.agent.stream
  {
    hide SaveBatch, Last, Acceptable, Acknowledged;
    var u := Answered(s);
    AnsweredHead(s);
    ReceivedHead(s, u);
  }

  lemma {:induction false} Deliver(s: State, u: State)
    requires Gets(s, u) && Idle(u) && u.spool != [] && Acceptable(u.spool[0])
    ensures Gets(s, Delivered(u))
  {
    hide Gets, SaveBatch, Last, First;
    var id := u.agent.stream.value.id;
    GetsOn(s, u, Send);
    var sent := Apply(u, Send);
    GetsOn(s, sent, Commit(id, FIRST_READING));
    var committed := Apply(sent, Commit(id, FIRST_READING));
    GetsOn(s, committed, ReceiveAck);
    GetsOn(s, Apply(committed, ReceiveAck), SaveAck);
  }

  predicate AllAcceptable(q: Queue) {
    forall b :: b in q ==> Acceptable(b)
  }

  lemma {:induction false} DeliverAll(s: State, u: State) returns (last: State)
    requires Gets(s, u) && Idle(u) && AllAcceptable(u.spool)
    ensures Gets(s, last) && last.spool == []
    decreases |u.spool|
  {
    hide Gets, Idle, Delivered, Acceptable;
    last := u;
    if u.spool != [] {
      assert u.spool[0] in u.spool;
      DeliveredIsIdle(u);
      Deliver(s, u);
      last := DeliverAll(s, Delivered(u));
    }
  }

  /** Whatever the state, some run without evictions, refusals or crashes empties the spool. */
  lemma {:induction false} Drain(s: State) returns (last: State)
    requires StreamsFresh(s) && AllAcceptable(s.spool)
    ensures Gets(s, last) && last.spool == []
  {
    hide Gets, Idle, Acceptable, Acks;
    var left := LeaveStream(s);
    ConnectIsIdle(left);
    GetsOn(s, left, Connect);
    var r := left.agent.memory;
    AcknowledgeThins(left.spool, r.acknowledgedBootId, r.acknowledgedSequence);
    last := DeliverAll(s, Apply(left, Connect));
  }

  /**
   * From every state that keeps the invariant some run without further losses empties the spool, and every batch that
   * was spooled has been committed by then: no crash, lost reply or prune ever leaves the pipeline unable to deliver.
   */
  lemma {:induction false} SpoolCanDrain(s: State)
    requires Inv(s)
    ensures exists states, steps :: MildRun(s, states, steps) && Drained(s, states[|steps|])
  {
    assert StreamsFresh(s) && AllAcceptable(s.spool);
    var last := Drain(s);
    hide Inv, RunsFrom, MildRun, Drained;
    var states, steps :| MildRun(s, states, steps) && states[|steps|] == last;
    RunDrains(s, states, steps);
  }

  /** Everything spooled in s is committed in last, and nothing was evicted or quarantined on the way. */
  ghost predicate Drained(s: State, last: State) {
    && last.spool == []
    && (forall b :: b in s.spool ==> Committed(last.store, last.server, b))
    && last.evicted == s.evicted && last.quarantined == s.quarantined
  }

  lemma {:induction false} RunDrains(s: State, states: seq<State>, steps: seq<Step>)
    requires Inv(s) && MildRun(s, states, steps) && states[|steps|].spool == []
    ensures Drained(s, states[|steps|])
  {
    hide Inv, Committed, Apply, Enabled, Careful;
    forall b | b in s.spool ensures Committed(states[|steps|].store, states[|steps|].server, b) {
      MildRunKeeps(s, states, steps, |steps|, b);
    }
    SparesAll(s, states, steps, |steps|);
  }

  lemma {:induction false} SparesAll(s: State, states: seq<State>, steps: seq<Step>, i: nat)
    requires MildRun(s, states, steps) && i < |states|
    ensures states[i].evicted == s.evicted && states[i].quarantined == s.quarantined
  {
    hide Apply, Enabled, Careful, Mild;
    if i > 0 {
      SparesAll(s, states, steps, i - 1);
      MildStepSparesAll(states[i - 1], steps[i - 1]);
    }
  }
}
