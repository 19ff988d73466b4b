/** Why a batch leaves the spool in a lossless run. */
module PipelineDepartures {
  import opened Wrappers
  import opened Telemetry
  import opened MetricStore
  import opened AgentIdentity
  import opened BatchQueue
  import opened Pipeline
  import opened PipelineSafety
  import opened PipelineLossFree
  import opened PipelineLossFreeSteps
  import opened PipelineLossExact

  // ----- Rejections -----

  /** A rejection that has not been received yet is for the batch in flight, which the gateway has refused. */
  predicate RejectionOk(s: State) {
    s.agent.Up? && s.agent.stream.Some? ==>
      var stream := s.agent.stream.value;
      stream.id in s.replies && s.replies[stream.id].Rejection? ==>
        stream.awaiting.Some? && stream.awaiting.value in s.refused
  }

  lemma {:induction false} StepKeepsRejections(s: State, step: Step)
    requires FlowOk(s) && RejectionOk(s) && Enabled(s, step)
    ensures RejectionOk(Apply(s, step))
  {
    hide Foremost, InFlight, Committed, SaveBatch, Highest, Raise, Issue, Last, First, Acceptable, AfterAck;
    hide BatchQueue.Acknowledge, Acknowledged;
  }

  // ----- Departures -----

  /** The prune on connect removes stored batches only. */
  lemma {:induction false} PrunedIsStored(s: State, b: MetricBatch)
    requires AcksOk(s) && Enabled(s, Connect) && b in s.spool && b !in Apply(s, Connect).spool
    ensures Committed(s.store, s.server, b)
  {
    var r := s.agent.memory;
    var ack := (r.acknowledgedBootId, r.acknowledgedSequence);
    AcknowledgeThins(s.spool, ack.0, ack.1);
    hide CoveredBy, Committed, BatchQueue.Acknowledge, Thins;
    assert ack in Acks(s);
    assert PrunesStored(s, ack);
  }

  lemma {:induction false} RejectedLeaves(s: State, b: MetricBatch)
    requires FlowOk(s) && RejectionOk(s) && Enabled(s, ReceiveRejection)
    requires b in s.spool && b !in Apply(s, ReceiveRejection).spool
    ensures b in Apply(s, ReceiveRejection).quarantined && b in s.refused
  {
    ReplyFitsFlight(s);
    var f := s.agent.stream.value.awaiting.value;
    QuarantineMoves(s, f);
    RemoveThins(s.spool, f);
    assert b == f by {
      assert InFlight(s, f);
    }
    hide FlowOk, InFlight, RemoveFile, Thins, Apply, Enabled;
  }

  /** The same explanation as in careful runs, for every state that lossless steps keep. */
  lemma {:induction false} LeavesForCause(s: State, step: Step, b: MetricBatch)
    requires LossFree(s) && RejectionOk(s) && Enabled(s, step)
    requires b in s.spool && b !in Apply(s, step).spool
    ensures Explains(s, step, b)
  {
    match step
    case Connect => PrunedIsStored(s, b);
    case ReceiveAck =>
      var f := AckIsQuiet(s);
    case Put(evict, at, _, _, _) => EvictedByPut(s.spool, evict, at, NewBatch(s, step), b);
    case PutFailed(evict) => EvictionAccounts(s.spool, evict);
    case ReceiveRejection => RejectedLeaves(s, b);
    case _ => KeepsSpool(s, step);
  }

  ghost predicate Explains(s: State, step: Step, b: MetricBatch)
    requires Enabled(s, step)
  {
    match step
    case Connect => Committed(s.store, s.server, b)
    case ReceiveAck => Committed(s.store, s.server, b)
    case Put(_, _, _, _, _) => b in Apply(s, step).evicted
    case PutFailed(_) => b in Apply(s, step).evicted
    case ReceiveRejection => b in Apply(s, step).quarantined && b in s.refused
    case _ => false
  }

  lemma {:induction false} LosslessRunKeeps(states: seq<State>, steps: seq<Step>, i: nat)
    requires i < |states| && Init(states[0]) && LosslessRun(states[0], states, steps)
    ensures LossFree(states[i]) && RejectionOk(states[i])
  {
    hide Enabled, Apply, Lossless, LossFree, RejectionOk, Inv, FlowOk;
    if i == 0 {
      InitInv(states[0]);
      InvIsLossFree(states[0]);
      assert RejectionOk(states[0]) by { NoStream(states[0]); }
    } else {
      LosslessRunKeeps(states, steps, i - 1);
      StepKeepsLossFree(states[i - 1], steps[i - 1]);
      FlowOfLossFree(states[i - 1]);
      StepKeepsRejections(states[i - 1], steps[i - 1]);
    }
  }

  lemma {:induction false} NoStream(s: State)
    requires Init(s)
    ensures RejectionOk(s)
  {
  }

  /**
   * In every lossless run a batch leaves the spool for a cause: it is stored, and acknowledged or pruned; or it is
   * evicted to make room; or the gateway has refused it and it is quarantined.
   */
  lemma {:induction false} LosslessDepartures(states: seq<State>, steps: seq<Step>, i: nat, b: MetricBatch)
    requires |states| > 0 && Init(states[0]) && LosslessRun(states[0], states, steps) && i < |steps|
    requires b in states[i].spool && b !in states[i + 1].spool
    ensures match steps[i]
            case Connect => Committed(states[i].store, states[i].server, b)
            case ReceiveAck => Committed(states[i].store, states[i].server, b)
            case Put(_, _, _, _, _) => b in states[i + 1].evicted
            case PutFailed(_) => b in states[i + 1].evicted
            case ReceiveRejection => b in states[i + 1].quarantined && b in states[i].refused
            case _ => false
  {
    LosslessRunKeeps(states, steps, i);
    hide Apply, Enabled, LossFree, RejectionOk, Lossless;
    LeavesForCause(states[i], steps[i], b);
  }
}
