/** The gate on concurrent channels of one SSH connection: a counting semaphore with a first-in first-out queue. */
module ChannelGate {
  import opened Wrappers

  const MAX_CHANNELS: nat := 6

  /** Operations are numbered in the order they are submitted. */
  type Op = nat

  datatype Gate = Gate(active: nat, queue: seq<Op>)

  predicate StartsAtOnce(g: Gate) {
    g.active < MAX_CHANNELS
  }

  function Acquired(g: Gate, op: Op): Gate {
    if StartsAtOnce(g) then g.(active := g.active + 1) else g.(queue := g.queue + [op])
  }

  /** The waiter that takes over the slot of an operation that settles. */
  function Waiter(g: Gate): Option<Op> {
    if g.queue == [] then None else Some(g.queue[0])
  }

  function Settled(g: Gate): Gate
    requires g.active > 0
  {
    if g.queue == [] then g.(active := g.active - 1) else g.(queue := g.queue[1..])
  }

  class ConnectionEntry {
    var activeChannels: nat
    var channelQueue: seq<Op>

    function State(): Gate
      reads this
    {
      Gate(activeChannels, channelQueue)
    }

    constructor ()
      ensures State() == Gate(0, [])
    {
      activeChannels, channelQueue := 0, [];
    }

    method Execute()
      modifies this`activeChannels
      ensures activeChannels == old(activeChannels) + 1
    {
      activeChannels := activeChannels + 1;
    }

    method AcquireChannel(op: Op) returns (runs: bool)
      modifies this
      ensures runs == StartsAtOnce(old(State()))
      ensures State() == Acquired(old(State()), op)
    {
      runs := activeChannels < MAX_CHANNELS;
      if runs {
        Execute();
      } else {
        channelQueue := channelQueue + [op];
      }
    }

    /** An operation has settled, one way or the other. */
    method Settle() returns (next: Option<Op>)
      requires activeChannels > 0
      modifies this
      ensures next == Waiter(old(State()))
      ensures State() == Settled(old(State()))
    {
      activeChannels := activeChannels - 1;
      next := ReleaseChannel();
    }

    method ReleaseChannel() returns (next: Option<Op>)
      modifies this
      ensures next == Waiter(old(State()))
      ensures next.None? ==> State() == old(State())
      ensures next.Some? ==> State() == Gate(old(activeChannels) + 1, old(channelQueue)[1..])
    {
      if channelQueue == [] {
        return None;
      }
      next, channelQueue := Some(channelQueue[0]), channelQueue[1..];
      Execute();
    }

    method DrainQueueWithError()
      modifies this`channelQueue
      ensures channelQueue == []
    {
      channelQueue := [];
    }
  }

  // ----- Runs -----

  datatype Event = Submit | Finish(op: Op) | Drain

  /** The gate and what has become of the operations 0, 1, ..., submitted - 1. */
  datatype History = History(gate: Gate, submitted: nat, started: seq<Op>, finished: set<Op>, dropped: set<Op>)

  predicate Enabled(h: History, e: Event) {
    e.Finish? ==> e.op in h.started && e.op !in h.finished && h.gate.active > 0
  }

  function Waiting(h: History): set<Op> {
    set i | 0 <= i < |h.gate.queue| :: h.gate.queue[i]
  }

  function Apply(h: History, e: Event): History
    requires Enabled(h, e)
  {
    match e
    case Submit =>
      h.(gate := Acquired(h.gate, h.submitted),
         submitted := h.submitted + 1,
         started := if StartsAtOnce(h.gate) then h.started + [h.submitted] else h.started)
    case Finish(op) =>
      h.(gate := Settled(h.gate),
         finished := h.finished + {op},
         started := if Waiter(h.gate).Some? then h.started + [Waiter(h.gate).value] else h.started)
    case Drain =>
      h.(gate := h.gate.(queue := []), dropped := h.dropped + Waiting(h))
  }

  const FRESH: History := History(Gate(0, []), 0, [], {}, {})

  ghost predicate IsRun(h: History, events: seq<Event>)
    decreases |events|
  {
    events == [] || (Enabled(h, events[0]) && IsRun(Apply(h, events[0]), events[1..]))
  }

  function After(h: History, events: seq<Event>): History
    requires IsRun(h, events)
    decreases |events|
  {
    if events == [] then h else After(Apply(h, events[0]), events[1..])
  }

  // ----- What every run keeps -----

  /** The operations submitted and not dropped, in the order they were submitted. */
  function Kept(n: nat, dropped: set<Op>): seq<Op> {
    if n == 0 then [] else Kept(n - 1, dropped) + if n - 1 in dropped then [] else [n - 1]
  }

  predicate Started(h: History, op: Op) {
    op in h.started
  }

  ghost predicate Inv(h: History) {
    && h.gate.active <= MAX_CHANNELS
    && (h.gate.queue != [] ==> h.gate.active == MAX_CHANNELS)
    && (forall op :: op in h.dropped ==> op < h.submitted)
    && h.started + h.gate.queue == Kept(h.submitted, h.dropped)
    && (forall op :: op in h.finished ==> Started(h, op))
    && h.gate.active + |h.finished| == |h.started|
  }

  lemma {:induction false} KeptMembers(n: nat, dropped: set<Op>)
    ensures forall op: Op :: op in Kept(n, dropped) <==> op < n && op !in dropped
    ensures forall i, j :: 0 <= i < j < |Kept(n, dropped)| ==> Kept(n, dropped)[i] < Kept(n, dropped)[j]
  {
    if n > 0 {
      KeptMembers(n - 1, dropped);
      var rest := Kept(n - 1, dropped);
      forall i | 0 <= i < |rest| ensures rest[i] < n - 1 {
        assert rest[i] in rest;
      }
      var all := Kept(n, dropped);
      forall op: Op ensures op in all <==> op < n && op !in dropped {
        if op in all && op !in rest {
          assert op == n - 1;
        }
        if op in rest {
          assert op in all;
        }
        if op == n - 1 && op !in dropped {
          assert all[|rest|] == op;
        }
      }
    }
  }

  lemma {:induction false} KeptLooksBelow(n: nat, one: set<Op>, other: set<Op>)
    requires forall op: Op :: op < n ==> (op in one <==> op in other)
    ensures Kept(n, one) == Kept(n, other)
  {
    if n > 0 {
      KeptLooksBelow(n - 1, one, other);
    }
  }

  /** Dropping a tail of the kept operations leaves the rest. */
  lemma {:induction false} KeptAfterDrop(n: nat, dropped: set<Op>, head: seq<Op>, tail: seq<Op>, gone: set<Op>)
    requires Kept(n, dropped) == head + tail
    requires gone == set i | 0 <= i < |tail| :: tail[i]
    ensures Kept(n, dropped + gone) == head
  {
    if tail == [] {
      assert dropped + gone == dropped && head + tail == head;
    } else if n > 0 {
      var all := Kept(n, dropped);
      if n - 1 in dropped {
        KeptAfterDrop(n - 1, dropped, head, tail, gone);
      } else {
        var m := |tail| - 1;
        assert all[|all| - 1] == n - 1 == tail[m];
        assert Kept(n - 1, dropped) == all[..|all| - 1] == head + tail[..m];
        var less := set i | 0 <= i < m :: tail[..m][i];
        KeptAfterDrop(n - 1, dropped, head, tail[..m], less);
        assert tail[m] in gone;
        forall op: Op | op < n - 1 ensures op in dropped + gone <==> op in dropped + less {
          if op in less {
            var i :| 0 <= i < m && tail[..m][i] == op;
            assert tail[i] == op;
          }
          if op in gone {
            var i :| 0 <= i < |tail| && tail[i] == op;
            assert i < m;
            assert tail[..m][i] == op;
          }
        }
        KeptLooksBelow(n - 1, dropped + gone, dropped + less);
      }
    }
  }

  lemma {:induction false} DrainKeepsInv(h: History)
    requires Inv(h)
    ensures Inv(Apply(h, Drain))
  {
    var next := Apply(h, Drain);
    KeptAfterDrop(h.submitted, h.dropped, h.started, h.gate.queue, Waiting(h));
    assert next.started + next.gate.queue == h.started;
    KeptMembers(h.submitted, h.dropped);
    hide Kept, Started;
    forall op | op in Waiting(h) ensures op < h.submitted {
      assert op in h.started + h.gate.queue;
    }
  }

  lemma {:induction false} SubmitKeepsInv(h: History)
    requires Inv(h)
    ensures Inv(Apply(h, Submit))
  {
    var next := Apply(h, Submit);
    KeptMembers(h.submitted, h.dropped);
    assert Kept(next.submitted, next.dropped) == Kept(h.submitted, h.dropped) + [h.submitted];
    hide Kept;
    assert next.started + next.gate.queue == h.started + h.gate.queue + [h.submitted];
    forall op | op in next.finished ensures Started(next, op) {
      assert Started(h, op);
    }
  }

  lemma {:induction false} FinishKeepsInv(h: History, op: Op)
    requires Inv(h) && Enabled(h, Finish(op))
    ensures Inv(Apply(h, Finish(op)))
  {
    var next := Apply(h, Finish(op));
    hide Kept;
    if h.gate.queue != [] {
      assert h.started + h.gate.queue == h.started + ([h.gate.queue[0]] + h.gate.queue[1..]);
    }
    assert next.started + next.gate.queue == h.started + h.gate.queue;
    forall o | o in next.finished ensures Started(next, o) {
      assert o != op ==> Started(h, o);
    }
  }

  lemma {:induction false} StepKeepsInv(h: History, e: Event)
    requires Inv(h) && Enabled(h, e)
    ensures Inv(Apply(h, e))
  {
    match e
    case Submit => SubmitKeepsInv(h);
    case Finish(op) => FinishKeepsInv(h, op);
    case Drain => DrainKeepsInv(h);
  }

  lemma {:induction false} RunKeepsInv(h: History, events: seq<Event>)
    requires Inv(h) && IsRun(h, events)
    ensures Inv(After(h, events))
    decreases |events|
  {
    if events != [] {
      StepKeepsInv(h, events[0]);
      RunKeepsInv(Apply(h, events[0]), events[1..]);
    }
  }

  function Elements(s: seq<Op>): (e: set<Op>)
    ensures forall op :: op in e <==> op in s
  {
    if s == [] then {} else Elements(s[1..]) + {s[0]}
  }

  lemma {:induction false} ElementsBounded(s: seq<Op>)
    ensures |Elements(s)| <= |s|
  {
    if s != [] {
      ElementsBounded(s[1..]);
    }
  }

  /**
   * The counter never runs below the operations still open: one that has not finished can always give its slot back.
   */
  lemma {:induction false} OpenChannelIsCounted(h: History, op: Op)
    requires Inv(h) && Started(h, op) && op !in h.finished
    ensures h.gate.active > 0 && Enabled(h, Finish(op))
  {
    ElementsBounded(h.started);
    assert forall o :: o in h.finished ==> Started(h, o);
    SubsetBounded(h.finished + {op}, Elements(h.started));
  }

  lemma {:induction false} SubsetBounded(small: set<Op>, large: set<Op>)
    requires small <= large
    ensures |small| <= |large|
  {
    if small != {} {
      var op :| op in small;
      SubsetBounded(small - {op}, large - {op});
    }
  }

  /** At most six channels are open, and an operation waits only while all six are. */
  lemma {:induction false} NeverOversubscribed(events: seq<Event>)
    requires IsRun(FRESH, events)
    ensures After(FRESH, events).gate.active <= 6
    ensures After(FRESH, events).gate.queue != [] ==> After(FRESH, events).gate.active == 6
  {
    RunKeepsInv(FRESH, events);
  }

  /** Every submitted operation was started once, is queued once, or was dropped by a drain; never two of these. */
  lemma {:induction false} StartedQueuedOrDropped(events: seq<Event>, op: Op)
    requires IsRun(FRESH, events)
    ensures var h := After(FRESH, events);
            op < h.submitted <==> op in h.started || op in h.gate.queue || op in h.dropped
    ensures var h := After(FRESH, events);
            var places := multiset(h.started) + multiset(h.gate.queue) + multiset(h.dropped);
            places[op] <= 1
  {
    RunKeepsInv(FRESH, events);
    var h := After(FRESH, events);
    KeptMembers(h.submitted, h.dropped);
    var kept := Kept(h.submitted, h.dropped);
    assert op in kept <==> op in h.started || op in h.gate.queue;
    AtMostOnce(kept, op);
    assert multiset(kept) == multiset(h.started + h.gate.queue);
  }

  lemma {:induction false} AtMostOnce(s: seq<Op>, op: Op)
    requires forall i, j :: 0 <= i < j < |s| ==> s[i] < s[j]
    ensures multiset(s)[op] <= 1
  {
    if s != [] {
      var n := |s| - 1;
      AtMostOnce(s[..n], op);
      assert s == s[..n] + [s[n]];
      assert s[n] !in s[..n];
    }
  }

  /**
   * Operations start in the order in which they were submitted, and none starts before an earlier one that still
   * waits.
   */
  lemma {:induction false} FirstInFirstOut(events: seq<Event>)
    requires IsRun(FRESH, events)
    ensures var h := After(FRESH, events);
            forall i, j :: 0 <= i < j < |h.started| ==> h.started[i] < h.started[j]
    ensures var h := After(FRESH, events);
            forall i, j :: 0 <= i < |h.started| && 0 <= j < |h.gate.queue| ==> h.started[i] < h.gate.queue[j]
  {
    RunKeepsInv(FRESH, events);
    LineIsInOrder(After(FRESH, events));
  }

  lemma {:induction false} LineIsInOrder(h: History)
    requires Inv(h)
    ensures forall i, j :: 0 <= i < j < |h.started| ==> h.started[i] < h.started[j]
    ensures forall i, j :: 0 <= i < |h.started| && 0 <= j < |h.gate.queue| ==> h.started[i] < h.gate.queue[j]
  {
    KeptMembers(h.submitted, h.dropped);
    IncreasingParts(h.started, h.gate.queue);
  }

  lemma {:induction false} IncreasingParts(s: seq<Op>, t: seq<Op>)
    requires forall i, j :: 0 <= i < j < |s + t| ==> (s + t)[i] < (s + t)[j]
    ensures forall i, j :: 0 <= i < j < |s| ==> s[i] < s[j]
    ensures forall i, j :: 0 <= i < |s| && 0 <= j < |t| ==> s[i] < t[j]
  {
    forall i, j | 0 <= i < j < |s| ensures s[i] < s[j] {
      assert (s + t)[i] < (s + t)[j];
    }
    forall i, j | 0 <= i < |s| && 0 <= j < |t| ensures s[i] < t[j] {
      assert (s + t)[i] < (s + t)[|s| + j];
    }
  }

  lemma {:induction false} KeptCount(n: nat, dropped: set<Op>)
    requires forall op :: op in dropped ==> op < n
    ensures |Kept(n, dropped)| == n - |dropped|
  {
    if n > 0 {
      var fewer := dropped - {n - 1};
      KeptLooksBelow(n - 1, dropped, fewer);
      KeptCount(n - 1, fewer);
      if n - 1 in dropped {
        assert dropped == fewer + {n - 1};
      } else {
        assert dropped == fewer;
      }
    } else {
      assert dropped == {};
    }
  }

  /** No slot is idle while there is work: as many run as the limit and the unfinished operations allow. */
  lemma {:induction false} NoIdleSlot(events: seq<Event>)
    requires IsRun(FRESH, events)
    ensures var h := After(FRESH, events);
            var unfinished := h.submitted - |h.dropped| - |h.finished|;
            h.gate.active == if unfinished < 6 then unfinished else 6
  {
    RunKeepsInv(FRESH, events);
    var h := After(FRESH, events);
    KeptCount(h.submitted, h.dropped);
  }

  function Finishes(events: seq<Event>): nat {
    if events == [] then 0 else Finishes(events[1..]) + if events[0].Finish? then 1 else 0
  }

  /** Without a drain the line only moves forward: every finish starts the next waiter. */
  lemma {:induction false} LineMoves(h: History, events: seq<Event>)
    requires Inv(h) && IsRun(h, events) && Drain !in events
    ensures h.started + h.gate.queue <= After(h, events).started + After(h, events).gate.queue
    ensures |After(h, events).started| >= |h.started| + Finishes(events)
              || h.started + h.gate.queue <= After(h, events).started
    decreases |events|
  {
    if events != [] {
      StepKeepsInv(h, events[0]);
      var next := Apply(h, events[0]);
      var line := h.started + h.gate.queue;
      assert events[0] in events;
      assert line <= next.started + next.gate.queue by {
        if events[0].Finish? && h.gate.queue != [] {
          assert next.started + next.gate.queue == h.started + ([h.gate.queue[0]] + h.gate.queue[1..]);
        }
      }
      LineMoves(next, events[1..]);
    }
  }

  /** The waiter at position k is running after k + 1 further finishes, whatever is submitted behind it. */
  lemma {:induction false} WaiterIsServed(h: History, events: seq<Event>, k: nat)
    requires Inv(h) && IsRun(h, events) && Drain !in events
    requires k < |h.gate.queue| && Finishes(events) > k
    ensures var after := After(h, events);
            |h.started| + k < |after.started| && after.started[|h.started| + k] == h.gate.queue[k]
  {
    LineMoves(h, events);
    var after := After(h, events);
    var line := h.started + h.gate.queue;
    assert line[|h.started| + k] == h.gate.queue[k];
    assert (after.started + after.gate.queue)[|h.started| + k] == line[|h.started| + k];
  }
}
