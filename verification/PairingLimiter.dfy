/** The gateway's fixed-window limit on pairing attempts per peer. Times are nanoseconds; ZERO is the zero time. */
module PairingLimiter {

  const ZERO: int := 0
  const WINDOW: int := 60_000_000_000
  const BURST: nat := 10
  const PRUNE_SIZE: nat := 1024

  datatype Window = Window(startedAt: int, requests: nat)

  type Windows = map<string, Window>

  function KeyOf(key: string): string {
    if key == "" then "unknown" else key
  }

  /** A missing entry reads as the zero window. */
  function Lookup(w: Windows, key: string): Window {
    if key in w then w[key] else Window(ZERO, 0)
  }

  predicate Opens(w: Windows, key: string, now: int) {
    Lookup(w, key).startedAt == ZERO || now - Lookup(w, key).startedAt >= WINDOW
  }

  predicate Admits(w: Windows, key: string, now: int) {
    Opens(w, key, now) || Lookup(w, key).requests < BURST
  }

  /** The limiter without pruning. */
  function Count(w: Windows, key: string, now: int): Windows {
    if Opens(w, key, now) then w[key := Window(now, 1)]
    else if Lookup(w, key).requests >= BURST then w
    else w[key := Lookup(w, key).(requests := Lookup(w, key).requests + 1)]
  }

  function Pruned(w: Windows, now: int): Windows {
    if |w| < PRUNE_SIZE then w
    else map key | key in w && now - w[key].startedAt < WINDOW :: w[key]
  }

  /** The limiter as it is: opening a window prunes the stale ones of a large table. */
  function CountAndPrune(w: Windows, key: string, now: int): Windows {
    if Opens(w, key, now) then Pruned(Count(w, key, now), now) else Count(w, key, now)
  }

  /** Whom an attempt counts for; attempts without an address share one count. */
  function Peer(rawKey: string): string {
    if |rawKey| > 0 then rawKey else "unknown"
  }

  /** The peer has a window that is not over. */
  predicate Known(w: Windows, peer: string, now: int) {
    peer in w && w[peer].startedAt != 0 && now - w[peer].startedAt < 60_000_000_000
  }

  class PairingRateLimiter {
    var windows: Windows

    constructor ()
      ensures windows == map[]
    {
      windows := map[];
    }

    method Allow(rawKey: string, now: int) returns (allowed: bool)
      modifies this
      ensures allowed == Admits(old(windows), KeyOf(rawKey), now)
      ensures windows == CountAndPrune(old(windows), KeyOf(rawKey), now)
      ensures allowed <==> !Known(old(windows), Peer(rawKey), now) || old(windows)[Peer(rawKey)].requests < 10
      // A refusal changes nothing, an admission counts, and the first one of a minute opens a window.
      ensures !allowed ==> windows == old(windows)
      ensures allowed && Known(old(windows), Peer(rawKey), now) ==>
                var window := old(windows)[Peer(rawKey)];
                windows == old(windows)[Peer(rawKey) := Window(window.startedAt, window.requests + 1)]
      ensures !Known(old(windows), Peer(rawKey), now) ==>
                Peer(rawKey) in windows && windows[Peer(rawKey)] == Window(now, 1)
      // Opening one drops, of at least 1024 windows, exactly those of other peers that are over.
      ensures !Known(old(windows), Peer(rawKey), now) ==>
                forall key :: key != Peer(rawKey) ==>
                  && (key in windows <==>
                      key in old(windows) && (|old(windows).Keys + {Peer(rawKey)}| < 1024
                                              || now - old(windows)[key].startedAt < 60_000_000_000))
                  && (key in windows ==> windows[key] == old(windows)[key])
    {
      assert old(windows)[KeyOf(rawKey) := Window(now, 1)].Keys == old(windows).Keys + {KeyOf(rawKey)};
      var key := KeyOf(rawKey);
      var state := Lookup(windows, key);
      if state.startedAt == ZERO || now - state.startedAt >= WINDOW {
        windows := windows[key := Window(now, 1)];
        Prune(now);
        return true;
      }
      if state.requests >= BURST {
        return false;
      }
      windows := windows[key := state.(requests := state.requests + 1)];
      return true;
    }

    method Prune(now: int)
      modifies this
      ensures windows == Pruned(old(windows), now)
    {
      if |windows| < PRUNE_SIZE {
        return;
      }
      ghost var all := windows;
      var pending := windows.Keys;
      while pending != {}
        invariant pending <= windows.Keys <= all.Keys
        invariant forall key :: key in windows ==> windows[key] == all[key]
        invariant forall key :: key in all && key !in pending ==>
                    (key in windows <==> now - all[key].startedAt < WINDOW)
        decreases |pending|
      {
        var key :| key in pending;
        pending := pending - {key};
        if now - windows[key].startedAt >= WINDOW {
          windows := windows - {key};
        }
      }
    }
  }

  // ----- Pruning changes no decision -----

  datatype Call = Call(key: string, now: int)

  predicate Ordered(calls: seq<Call>) {
    && (forall i :: 0 <= i < |calls| ==> calls[i].now > ZERO)
    && (forall i, j :: 0 <= i < j < |calls| ==> calls[i].now <= calls[j].now)
  }

  function Table(calls: seq<Call>): Windows {
    if calls == [] then map[]
    else CountAndPrune(Table(calls[..|calls| - 1]), calls[|calls| - 1].key, calls[|calls| - 1].now)
  }

  function Reference(calls: seq<Call>): Windows {
    if calls == [] then map[]
    else Count(Reference(calls[..|calls| - 1]), calls[|calls| - 1].key, calls[|calls| - 1].now)
  }

  /** The pruned table lacks only windows that are over by now. */
  ghost predicate Covers(w: Windows, full: Windows, now: int) {
    && (forall key :: key in w ==> key in full && w[key] == full[key])
    && (forall key :: key in full && key !in w ==> now - full[key].startedAt >= WINDOW)
    && (forall key :: key in full ==> full[key].startedAt > ZERO)
  }

  lemma {:induction false} CoversStep(w: Windows, full: Windows, before: int, key: string, now: int)
    requires Covers(w, full, before) && before <= now && now > ZERO
    ensures Admits(w, key, now) == Admits(full, key, now)
    ensures Covers(CountAndPrune(w, key, now), Count(full, key, now), now)
  {
  }

  lemma {:induction false} PrunedCovers(calls: seq<Call>, now: int)
    requires Ordered(calls) && forall i :: 0 <= i < |calls| ==> calls[i].now <= now
    ensures Covers(Table(calls), Reference(calls), now)
  {
    if calls != [] {
      var n := |calls| - 1;
      PrunedCovers(calls[..n], calls[n].now);
      CoversStep(Table(calls[..n]), Reference(calls[..n]), calls[n].now, calls[n].key, calls[n].now);
    }
  }

  /** With a clock that never runs back, the limiter decides exactly like one that never prunes. */
  lemma {:induction false} PruningIsInvisible(calls: seq<Call>, key: string, now: int)
    requires Ordered(calls + [Call(key, now)])
    ensures Admits(Table(calls), key, now) == Admits(Reference(calls), key, now)
  {
    var all := calls + [Call(key, now)];
    forall i | 0 <= i < |calls| ensures calls[i].now == all[i].now && all[i].now <= all[|calls|].now {
    }
    assert forall i :: 0 <= i < |calls| ==> all[i] == calls[i];
    PrunedCovers(calls, now);
    CoversStep(Table(calls), Reference(calls), now, key, now);
  }

  // ----- How many attempts an interval admits -----

  /** The times at which attempts of the key were admitted. */
  function Admitted(calls: seq<Call>, key: string): seq<int> {
    if calls == [] then []
    else
      var n := |calls| - 1;
      var rest := Admitted(calls[..n], key);
      if calls[n].key == key && Admits(Table(calls[..n]), key, calls[n].now) then rest + [calls[n].now] else rest
  }

  /** How many of the times lie in [from, to). */
  function CountIn(times: seq<int>, from: int, to: int): nat {
    if times == [] then 0
    else
      var n := |times| - 1;
      CountIn(times[..n], from, to) + if from <= times[n] < to then 1 else 0
  }

  /** How many lie in the half-open minute from t. */
  function InMinute(times: seq<int>, t: int): nat {
    CountIn(times, t, t + WINDOW)
  }

  lemma {:induction false} CountSplits(times: seq<int>, from: int, mid: int, to: int)
    requires from <= mid <= to
    ensures CountIn(times, from, to) == CountIn(times, from, mid) + CountIn(times, mid, to)
  {
    if times != [] {
      CountSplits(times[..|times| - 1], from, mid, to);
    }
  }

  lemma {:induction false} CountMonotone(times: seq<int>, from: int, to: int, from': int, to': int)
    requires forall i :: 0 <= i < |times| && from <= times[i] < to ==> from' <= times[i] < to'
    ensures CountIn(times, from, to) <= CountIn(times, from', to')
  {
    if times != [] {
      CountMonotone(times[..|times| - 1], from, to, from', to');
    }
  }

  lemma {:induction false} CountAppend(times: seq<int>, t: int, from: int, to: int)
    ensures CountIn(times + [t], from, to) == CountIn(times, from, to) + if from <= t < to then 1 else 0
  {
    assert (times + [t])[..|times|] == times;
  }

  /** One key's window and its admitted times: the open window holds its own requests, the minute before it holds
      less than a burst, and no minute at all holds two bursts. */
  ghost predicate Bounded(w: Windows, key: string, times: seq<int>) {
    var s := Lookup(w, key);
    if key !in w then times == []
    else
      && s.startedAt > ZERO && s.requests <= BURST
      && (forall i :: 0 <= i < |times| ==> times[i] < s.startedAt + WINDOW)
      && CountIn(times, s.startedAt, s.startedAt + 1) >= 1
      && CountIn(times, s.startedAt, s.startedAt + WINDOW) == s.requests
      && (forall t :: s.startedAt - WINDOW < t <= s.startedAt ==> CountIn(times, t, s.startedAt) < BURST)
      && (forall t :: InMinute(times, t) < 2 * BURST)
  }

  /** Everything admitted after a window opened is less than a burst. */
  lemma {:induction false} TailOfWindow(w: Windows, key: string, times: seq<int>, t: int, to: int)
    requires Bounded(w, key, times) && key in w && w[key].startedAt < t
    ensures CountIn(times, t, to) < BURST
  {
    var s := w[key];
    CountMonotone(times, t, to, s.startedAt + 1, s.startedAt + WINDOW);
    CountSplits(times, s.startedAt, s.startedAt + 1, s.startedAt + WINDOW);
  }

  lemma {:induction false} OpenKeepsBounded(w: Windows, key: string, times: seq<int>, now: int)
    requires Bounded(w, key, times) && Opens(w, key, now) && now > ZERO
    requires forall i :: 0 <= i < |times| ==> times[i] <= now
    ensures Bounded(Count(w, key, now), key, times + [now])
  {
    var times' := times + [now];
    NoneAfter(times, now);
    CountAppend(times, now, now, now + 1);
    CountAppend(times, now, now, now + WINDOW);
    forall t | now - WINDOW < t <= now ensures CountIn(times', t, now) < BURST {
      CountAppend(times, now, t, now);
      if key in w {
        TailOfWindow(w, key, times, t, now);
      }
    }
    forall t ensures InMinute(times', t) < 2 * BURST {
      CountAppend(times, now, t, t + WINDOW);
      assert InMinute(times, t) < 2 * BURST || times == [];
      if key in w && t > w[key].startedAt {
        TailOfWindow(w, key, times, t, t + WINDOW);
      }
    }
  }

  lemma {:induction false} NoneAfter(times: seq<int>, now: int)
    requires forall i :: 0 <= i < |times| ==> times[i] < now
    ensures CountIn(times, now, now + WINDOW) == 0 && CountIn(times, now, now + 1) == 0
  {
    if times != [] {
      NoneAfter(times[..|times| - 1], now);
    }
  }

  lemma {:induction false} AdmitKeepsBounded(w: Windows, key: string, times: seq<int>, now: int)
    requires Bounded(w, key, times) && !Opens(w, key, now) && Lookup(w, key).requests < BURST
    requires Lookup(w, key).startedAt <= now
    ensures Bounded(Count(w, key, now), key, times + [now])
  {
    var s := w[key];
    var times' := times + [now];
    CountAppend(times, now, s.startedAt, s.startedAt + 1);
    CountAppend(times, now, s.startedAt, s.startedAt + WINDOW);
    forall t | s.startedAt - WINDOW < t <= s.startedAt ensures CountIn(times', t, s.startedAt) < BURST {
      CountAppend(times, now, t, s.startedAt);
    }
    forall t ensures InMinute(times', t) < 2 * BURST {
      CountAppend(times, now, t, t + WINDOW);
      assert InMinute(times, t) < 2 * BURST;
      if t <= now < t + WINDOW {
        if t <= s.startedAt {
          CountSplits(times, t, s.startedAt, t + WINDOW);
          CountMonotone(times, s.startedAt, t + WINDOW, s.startedAt, s.startedAt + WINDOW);
        } else {
          TailOfWindow(w, key, times, t, t + WINDOW);
        }
      }
    }
  }

  lemma {:induction false} OtherKey(w: Windows, key: string, other: string, times: seq<int>, now: int)
    requires key != other && Bounded(w, key, times)
    ensures Bounded(Count(w, other, now), key, times)
    ensures Lookup(Count(w, other, now), key) == Lookup(w, key) && (key in Count(w, other, now) <==> key in w)
  {
    assert Lookup(Count(w, other, now), key) == Lookup(w, key);
  }

  lemma {:induction false} BoundedStep(w: Windows, key: string, times: seq<int>, call: Call)
    requires Bounded(w, key, times) && call.now > ZERO
    requires forall i :: 0 <= i < |times| ==> times[i] <= call.now
    requires key in w ==> w[key].startedAt <= call.now
    ensures Bounded(Count(w, call.key, call.now), key,
                    if call.key == key && Admits(w, key, call.now) then times + [call.now] else times)
    ensures key in Count(w, call.key, call.now) ==> Count(w, call.key, call.now)[key].startedAt <= call.now
  {
    if call.key != key {
      OtherKey(w, key, call.key, times, call.now);
    } else if Opens(w, key, call.now) {
      OpenKeepsBounded(w, key, times, call.now);
    } else if w[key].requests < BURST {
      AdmitKeepsBounded(w, key, times, call.now);
    }
  }

  lemma {:induction false} HistoryBounded(calls: seq<Call>, key: string, now: int)
    requires Ordered(calls) && forall i :: 0 <= i < |calls| ==> calls[i].now <= now
    ensures Bounded(Reference(calls), key, Admitted(calls, key))
    ensures forall i :: 0 <= i < |Admitted(calls, key)| ==> Admitted(calls, key)[i] <= now
    ensures key in Reference(calls) ==> Reference(calls)[key].startedAt <= now
  {
    if calls != [] {
      var n := |calls| - 1;
      HistoryBounded(calls[..n], key, calls[n].now);
      PrunedCovers(calls[..n], calls[n].now);
      CoversStep(Table(calls[..n]), Reference(calls[..n]), calls[n].now, key, calls[n].now);
      hide Bounded, CountAndPrune, Admits;
      BoundedStep(Reference(calls[..n]), key, Admitted(calls[..n], key), calls[n]);
    }
  }

  /** Any half-open minute admits fewer than two bursts per key, although each window admits a whole one. */
  lemma {:induction false} FewerThanTwoBursts(calls: seq<Call>, key: string, t: int)
    requires Ordered(calls)
    ensures InMinute(Admitted(calls, key), t) < 2 * BURST
  {
    if calls != [] {
      HistoryBounded(calls, key, calls[|calls| - 1].now);
      assert key !in Reference(calls) ==> Admitted(calls, key) == [];
    }
  }

  // ----- The bound is met -----

  function Repeat(key: string, now: int, n: nat): seq<Call> {
    if n == 0 then [] else Repeat(key, now, n - 1) + [Call(key, now)]
  }

  lemma {:induction false} RepeatAdmits(calls: seq<Call>, key: string, now: int, n: nat)
    requires key in Table(calls) && Table(calls)[key].startedAt > ZERO
    requires Table(calls)[key].requests + n <= BURST && now - Table(calls)[key].startedAt < WINDOW
    ensures var all := calls + Repeat(key, now, n);
            && key in Table(all)
            && Table(all)[key] == Window(Table(calls)[key].startedAt, Table(calls)[key].requests + n)
            && forall from, to :: CountIn(Admitted(all, key), from, to)
                 == CountIn(Admitted(calls, key), from, to) + if from <= now < to then n else 0
  {
    if n == 0 {
      assert calls + Repeat(key, now, 0) == calls;
    } else {
      RepeatAdmits(calls, key, now, n - 1);
      var all, rest := calls + Repeat(key, now, n), calls + Repeat(key, now, n - 1);
      assert all == rest + [Call(key, now)];
      OneMore(rest, key, now);
    }
  }

  lemma {:induction false} OneMore(calls: seq<Call>, key: string, now: int)
    requires Admits(Table(calls), key, now)
    ensures var all := calls + [Call(key, now)];
            && Table(all) == CountAndPrune(Table(calls), key, now)
            && forall from, to :: CountIn(Admitted(all, key), from, to)
                 == CountIn(Admitted(calls, key), from, to) + if from <= now < to then 1 else 0
  {
    var all := calls + [Call(key, now)];
    assert all[..|calls|] == calls;
    forall from, to
      ensures CountIn(Admitted(all, key), from, to)
           == CountIn(Admitted(calls, key), from, to) + if from <= now < to then 1 else 0
    {
      CountAppend(Admitted(calls, key), now, from, to);
    }
  }

  lemma {:induction false} OneOpens(calls: seq<Call>, key: string, now: int)
    requires Opens(Table(calls), key, now)
    ensures var all := calls + [Call(key, now)];
            && key in Table(all) && Table(all)[key] == Window(now, 1)
            && forall from, to :: CountIn(Admitted(all, key), from, to)
                 == CountIn(Admitted(calls, key), from, to) + if from <= now < to then 1 else 0
  {
    hide Admitted, CountIn;
    OneMore(calls, key, now);
  }

  /** One attempt, nine more at the end of its window and ten at the start of the next. */
  function Burst(key: string): seq<Call> {
    var second := [] + [Call(key, 1)] + Repeat(key, WINDOW, 9);
    second + [Call(key, WINDOW + 1)] + Repeat(key, WINDOW + 1, 9)
  }

  lemma {:induction false} BurstIsOrdered(key: string)
    ensures Ordered(Burst(key))
  {
    hide Repeat;
    RepeatTimes(key, WINDOW, 9);
    RepeatTimes(key, WINDOW + 1, 9);
  }

  /** These are nineteen admissions within one minute: the bound is met. */
  lemma {:induction false} NineteenInOneMinute(key: string)
    ensures Ordered(Burst(key))
    ensures InMinute(Admitted(Burst(key), key), WINDOW) == 2 * BURST - 1
  {
    BurstIsOrdered(key);
    assert Table([]) == map[] && forall from, to :: CountIn(Admitted([], key), from, to) == 0;
    hide Table, Admitted, CountIn, Repeat, Ordered;
    var first := [] + [Call(key, 1)];
    OneOpens([], key, 1);
    RepeatAdmits(first, key, WINDOW, 9);
    var second := first + Repeat(key, WINDOW, 9);
    OneOpens(second, key, WINDOW + 1);
    RepeatAdmits(second + [Call(key, WINDOW + 1)], key, WINDOW + 1, 9);
  }

  lemma {:induction false} RepeatTimes(key: string, now: int, n: nat)
    ensures |Repeat(key, now, n)| == n
    ensures forall i :: 0 <= i < n ==> Repeat(key, now, n)[i] == Call(key, now)
  {
    if n > 0 {
      RepeatTimes(key, now, n - 1);
    }
  }
}
