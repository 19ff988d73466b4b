/** Which crashes are safe: exactly those after which no run can number two samples alike. */
module PipelineCrashes {
  import opened Wrappers
  import opened Telemetry
  import opened AgentIdentity
  import opened BatchQueue
  import opened Pipeline
  import opened PipelineSafety

  /** A run of careful steps from any state. */
  predicate RunsFrom(s: State, states: seq<State>, steps: seq<Step>) {
    && |states| == |steps| + 1
    && states[0] == s
    && forall i :: 0 <= i < |steps| ==>
         Enabled(states[i], steps[i]) && Careful(states[i], steps[i]) && states[i + 1] == Apply(states[i], steps[i])
  }

  /** The step issues no sequence that a batch of this boot carries already. */
  ghost predicate IssuesFresh(s: State, step: Step)
    requires Enabled(s, step)
  {
    step.Collect? ==>
      forall b, sample :: b in s.put && b.bootId == s.boot && sample in b.samples ==>
        sample.sequence != Apply(s, step).agent.memory.lastSequence
  }

  ghost predicate AlwaysFresh(s: State) {
    forall states, steps :: RunsFrom(s, states, steps) ==>
      forall i :: 0 <= i < |steps| ==> IssuesFresh(states[i], steps[i])
  }

  lemma {:induction false} InvThroughout(s: State, states: seq<State>, steps: seq<Step>, i: nat)
    requires Inv(s) && RunsFrom(s, states, steps) && i < |states|
    ensures Inv(states[i])
  {
    if i > 0 {
      InvThroughout(s, states, steps, i - 1);
      StepKeepsInv(states[i - 1], steps[i - 1]);
    }
  }

  lemma {:induction false} InvIssuesFresh(s: State, step: Step)
    requires Inv(s) && Enabled(s, step)
    ensures IssuesFresh(s, step)
  {
    if step.Collect? {
      forall b, sample | b in s.put && b.bootId == s.boot && sample in b.samples
        ensures sample.sequence < Apply(s, step).agent.memory.lastSequence
      {
        assert sample.sequence <= Last(b);
      }
    }
  }

  lemma {:induction false} InvAlwaysFresh(s: State)
    requires Inv(s)
    ensures AlwaysFresh(s)
  {
    hide Inv, IssuesFresh, Apply, Careful, Enabled;
    forall states, steps, i | RunsFrom(s, states, steps) && 0 <= i < |steps| ensures IssuesFresh(states[i], steps[i]) {
      InvThroughout(s, states, steps, i);
      InvIssuesFresh(states[i], steps[i]);
    }
  }

  // ----- Numbering again after a careless crash -----

  function Counting(s: State, last: nat): State
    requires s.agent.Up?
  {
    s.(agent := s.agent.(memory := s.agent.memory.(lastSequence := last)))
  }

  /** An idle collector counts up to any number within range. */
  lemma {:induction false} CountUp(s: State, k: nat) returns (states: seq<State>, steps: seq<Step>)
    requires Collecting(s) && s.agent.memory.bootId == s.boot
    requires s.agent.memory.lastSequence + k <= MetricStore.MAX_INT64
    ensures RunsFrom(s, states, steps)
    ensures states[|steps|] == Counting(s, s.agent.memory.lastSequence + k)
    ensures k > 0 ==> steps != [] && steps[|steps| - 1].Collect?
  {
    if k == 0 {
      return [s], [];
    }
    states, steps := CountUp(s, k - 1);
    states, steps := OneMoreStep(s, states, steps, Collect(None));
  }

  lemma {:induction false} OneMoreStep(s: State, states: seq<State>, steps: seq<Step>, step: Step)
    returns (states': seq<State>, steps': seq<Step>)
    requires RunsFrom(s, states, steps)
    requires Enabled(states[|steps|], step) && Careful(states[|steps|], step)
    ensures RunsFrom(s, states', steps') && steps' == steps + [step]
    ensures states' == states + [Apply(states[|steps|], step)]
  {
    states', steps' := states + [Apply(states[|steps|], step)], steps + [step];
    hide Enabled, Apply, Careful;
    forall i | 0 <= i < |steps'|
      ensures Enabled(states'[i], steps'[i]) && Careful(states'[i], steps'[i])
      ensures states'[i + 1] == Apply(states'[i], steps'[i])
    {
      if i < |steps| {
        assert states'[i] == states[i] && steps'[i] == steps[i] && states'[i + 1] == states[i + 1];
      }
    }
  }

  lemma {:induction false} OneStepBefore(s: State, step: Step, states: seq<State>, steps: seq<Step>)
    requires Enabled(s, step) && Careful(s, step) && RunsFrom(Apply(s, step), states, steps)
    ensures RunsFrom(s, [s] + states, [step] + steps)
  {
    hide Enabled, Apply, Careful;
    var states', steps' := [s] + states, [step] + steps;
    forall i | 0 <= i < |steps'|
      ensures Enabled(states'[i], steps'[i]) && Careful(states'[i], steps'[i])
      ensures states'[i + 1] == Apply(states'[i], steps'[i])
    {
      if i > 0 {
        assert states'[i] == states[i - 1] && steps'[i] == steps[i - 1] && states'[i + 1] == states[i];
      }
    }
  }

  /** After a careless crash numbering resumes below the last sequence of the batch that was not saved. */
  lemma {:induction false} ResumesBelow(s: State)
    requires Inv(s) && Enabled(s, Crash) && !Careful(s, Crash)
    ensures var up := Apply(Apply(s, Crash), Start);
            && Collecting(up) && up.boot == s.boot && up.put == s.put && up.agent.memory.bootId == s.boot
            && up.agent.memory.lastSequence < Last(s.agent.unsaved.value) <= MetricStore.MAX_INT64
  {
    HighestBelow(s, s.agent.unsaved.value);
    hide TrafficOk, StoreOk, RecordsOk, SpoolOk, HistoryOk, Accounted, PendingOk, Highest;
  }

  lemma {:induction false} UnsavedIsPut(s: State)
    requires Inv(s) && s.agent.Up? && s.agent.unsaved.Some?
    ensures s.agent.unsaved.value in s.put && s.agent.unsaved.value.bootId == s.boot
    ensures s.agent.unsaved.value.samples != []
  {
    assert Acceptable(s.agent.unsaved.value);
  }

  lemma {:induction false} IssuesAgain(s: State, b: MetricBatch)
    requires Collecting(s) && b in s.put && b.bootId == s.boot && b.samples != []
    requires s.agent.memory.bootId == s.boot && s.agent.memory.lastSequence + 1 == Last(b)
    ensures Enabled(s, Collect(None)) && !IssuesFresh(s, Collect(None))
  {
    LastIsCarried(b);
  }

  lemma {:induction false} ReissueFrom(up: State, b: MetricBatch) returns (states: seq<State>, steps: seq<Step>, i: nat)
    requires Collecting(up) && up.agent.memory.bootId == up.boot
    requires b in up.put && b.bootId == up.boot && b.samples != []
    requires up.agent.memory.lastSequence < Last(b) <= MetricStore.MAX_INT64
    ensures RunsFrom(up, states, steps) && i < |steps| && !IssuesFresh(states[i], steps[i])
  {
    hide Last;
    states, steps := CountUp(up, Last(b) - up.agent.memory.lastSequence - 1);
    var ready := states[|steps|];
    IssuesAgain(ready, b);
    assert Careful(ready, Collect(None));
    hide Enabled, Careful, IssuesFresh, Apply;
    i := |steps|;
    states, steps := OneMoreStep(up, states, steps, Collect(None));
  }

  lemma {:induction false} StaleStart(s: State, states: seq<State>, steps: seq<Step>, i: nat)
    requires Enabled(s, Start) && RunsFrom(Apply(s, Start), states, steps)
    requires i < |steps| && !IssuesFresh(states[i], steps[i])
    ensures !AlwaysFresh(s)
  {
    assert Careful(s, Start);
    hide Enabled, Careful, IssuesFresh, Apply;
    OneStepBefore(s, Start, states, steps);
    var states', steps' := [s] + states, [Start] + steps;
    assert states'[i + 1] == states[i] && steps'[i + 1] == steps[i];
  }

  lemma {:induction false} CarelessCrashReissues(s: State)
    requires Inv(s) && Enabled(s, Crash) && !Careful(s, Crash)
    ensures !AlwaysFresh(Apply(s, Crash))
  {
    assert Enabled(Apply(s, Crash), Start);
    ResumesBelow(s);
    UnsavedIsPut(s);
    hide Inv, Apply, Last, AlwaysFresh, RunsFrom, IssuesFresh;
    var states, steps, i := ReissueFrom(Apply(Apply(s, Crash), Start), s.agent.unsaved.value);
    StaleStart(Apply(s, Crash), states, steps, i);
  }

  lemma {:induction false} LastIsCarried(b: MetricBatch)
    requires b.samples != []
    ensures exists sample :: sample in b.samples && sample.sequence == Last(b)
  {
    LastCarried(b.samples);
  }

  lemma {:induction false} LastCarried(samples: seq<Sample>)
    requires samples != []
    ensures exists sample :: sample in samples && sample.sequence == LastSequence(samples)
  {
    if |samples| > 1 {
      LastCarried(samples[..|samples| - 1]);
      var sample :| sample in samples[..|samples| - 1] && sample.sequence == LastSequence(samples[..|samples| - 1]);
      assert sample in samples && samples[|samples| - 1] in samples;
    } else {
      assert samples[0] in samples;
    }
  }

  /**
   * A crash is harmless for the numbering exactly when the batch whose sequences are not saved yet is still spooled,
   * or the identity file reaches it already: then, and only then, no run that follows issues one of its sequences
   * again.
   */
  lemma {:induction false} CrashIsSafeExactly(s: State)
    requires Inv(s) && Enabled(s, Crash)
    ensures AlwaysFresh(Apply(s, Crash)) <==> Careful(s, Crash)
  {
    hide AlwaysFresh, Inv, Apply, Careful;
    if Careful(s, Crash) {
      StepKeepsInv(s, Crash);
      InvAlwaysFresh(Apply(s, Crash));
    } else {
      CarelessCrashReissues(s);
    }
  }
}
