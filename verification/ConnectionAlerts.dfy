/** Connection-lost alerts: one pending timer per rule, started by an outage and cleared by a reconnect. */
module ConnectionAlerts {
  import opened Wrappers
  import opened AlertRules

  datatype Status = Connecting | Connected | Reconnecting | Disconnected | Failed

  type TimerId = nat

  /** What a scheduled timer will look at, and the earliest time in milliseconds it can go off. */
  datatype Pending = Pending(rule: string, server: string, due: real)

  /** The engine's own map from rule to timer beside the timers that the runtime will still set off. */
  datatype Timers = Timers(byRule: map<string, TimerId>, pending: map<TimerId, Pending>, next: TimerId)

  predicate Watches(rule: Rule, server: string) {
    rule.server == server && rule.metric == ConnectionLost
  }

  predicate IsDown(status: Status) {
    status == Disconnected || status == Failed
  }

  // ----- The operations on the timers -----

  function Schedule(ts: Timers, rule: Rule, server: string, now: int): Timers {
    if !rule.enabled || !Watches(rule, server) || rule.id in ts.byRule then ts
    else
      var due := now as real + rule.durationSeconds * 1000.0;
      Timers(ts.byRule[rule.id := ts.next], ts.pending[ts.next := Pending(rule.id, server, due)], ts.next + 1)
  }

  /** Timers for the first n rules. */
  function ScheduleAll(ts: Timers, rules: seq<Rule>, n: nat, server: string, now: int): Timers
    requires n <= |rules|
  {
    if n == 0 then ts else Schedule(ScheduleAll(ts, rules, n - 1, server, now), rules[n - 1], server, now)
  }

  function Clear(ts: Timers, id: string): Timers {
    if id in ts.byRule then ts.(byRule := ts.byRule - {id}, pending := ts.pending - {ts.byRule[id]}) else ts
  }

  function ClearAll(ts: Timers, rules: seq<Rule>, n: nat, server: string): Timers
    requires n <= |rules|
  {
    if n == 0 then ts
    else if Watches(rules[n - 1], server) then Clear(ClearAll(ts, rules, n - 1, server), rules[n - 1].id)
    else ClearAll(ts, rules, n - 1, server)
  }

  function Reset(rule: Rule, server: string): Rule {
    if Watches(rule, server) then rule.(consecutiveBreaches := 0) else rule
  }

  function ResetAll(rules: seq<Rule>, server: string): seq<Rule> {
    seq(|rules|, i requires 0 <= i < |rules| => Reset(rules[i], server))
  }

  /** The timer has gone off. */
  function Expire(ts: Timers, t: TimerId): Timers
    requires t in ts.pending
  {
    ts.(byRule := ts.byRule - {ts.pending[t].rule}, pending := ts.pending - {t})
  }

  // ----- Firing -----

  function IndexOf(rules: seq<Rule>, id: string): (k: nat)
    ensures k <= |rules|
    ensures k < |rules| ==> rules[k].id == id
    ensures forall i :: 0 <= i < k ==> rules[i].id != id
  {
    if rules == [] then 0 else if rules[0].id == id then 0 else 1 + IndexOf(rules[1..], id)
  }

  /** The rule still asks for the alert and the connection is still down. */
  predicate StillDown(rules: seq<Rule>, id: string, current: Status, now: int) {
    var k := IndexOf(rules, id);
    && current != Connected && current != Connecting
    && k < |rules|
    && rules[k].enabled
    && rules[k].metric == ConnectionLost
    && !Cooling(rules[k], now)
  }

  function Triggered(rules: seq<Rule>, id: string, now: int): seq<Rule> {
    var k := IndexOf(rules, id);
    if k == |rules| then rules else rules[k := rules[k].(lastTriggeredAt := Some(now), consecutiveBreaches := 1)]
  }

  // ----- The same in the fields of the rules -----

  /** The rule is the first of the name, and asks for an alert now. */
  predicate AsksNow(rules: seq<Rule>, k: int, id: string, now: int) {
    && 0 <= k < |rules| && rules[k].id == id && (forall i :: 0 <= i < k ==> rules[i].id != id)
    && rules[k].enabled && rules[k].metric == ConnectionLost
    && (rules[k].lastTriggeredAt.Some? && rules[k].lastTriggeredAt.value != 0 ==>
          (now - rules[k].lastTriggeredAt.value) as real >= rules[k].cooldownMinutes * 60_000.0)
  }

  lemma {:induction false} StillDownInFields(rules: seq<Rule>, id: string, current: Status, now: int)
    ensures StillDown(rules, id, current, now)
       <==> current != Connected && current != Connecting && exists k :: 0 <= k < |rules| && AsksNow(rules, k, id, now)
    ensures forall k :: AsksNow(rules, k, id, now) ==> k == IndexOf(rules, id)
  {
    var k := IndexOf(rules, id);
    assert StillDown(rules, id, current, now) ==> AsksNow(rules, k, id, now);
  }

  /** Every enabled rule of the server has a timer, and each new one is due when the duration of its rule is over. */
  predicate OutageTimers(rules: seq<Rule>, n: nat, before: Timers, after: Timers, server: string, now: int)
    requires n <= |rules|
  {
    && (forall i :: 0 <= i < n && rules[i].enabled && rules[i].server == server && rules[i].metric == ConnectionLost ==>
          rules[i].id in after.byRule)
    && (forall id :: id in before.byRule ==> id in after.byRule && after.byRule[id] == before.byRule[id])
    && (forall id :: id in after.byRule && id !in before.byRule ==>
          after.byRule[id] in after.pending
          && exists i :: 0 <= i < n && rules[i].id == id && rules[i].enabled && rules[i].server == server
               && rules[i].metric == ConnectionLost
               && after.pending[after.byRule[id]]
                  == Pending(id, server, now as real + rules[i].durationSeconds * 1000.0))
    && before.next <= after.next
    && (forall id :: id in after.byRule && id !in before.byRule ==> after.byRule[id] < after.next)
  }

  ghost predicate Evaluated(rules: seq<Rule>, rules': seq<Rule>, before: Timers, after: Timers, server: string,
                            status: Status, now: int)
  {
    match status
    case Connected =>
      && |rules'| == |rules|
      && (forall i :: 0 <= i < |rules| ==>
            rules'[i] == if rules[i].server == server && rules[i].metric == ConnectionLost
                         then rules[i].(consecutiveBreaches := 0) else rules[i])
      && (forall id :: id in after.byRule <==>
            && id in before.byRule
            && !exists i :: 0 <= i < |rules| && rules[i].id == id && rules[i].server == server
                 && rules[i].metric == ConnectionLost)
    case Disconnected => rules' == rules && OutageTimers(rules, |rules|, before, after, server, now)
    case Failed => rules' == rules && OutageTimers(rules, |rules|, before, after, server, now)
    case Connecting => rules' == rules && after == before
    case Reconnecting => rules' == rules && after == before
  }

  lemma {:induction false} ClearedInFields(ts: Timers, rules: seq<Rule>, n: nat, server: string)
    requires n <= |rules|
    ensures forall id :: id in ClearAll(ts, rules, n, server).byRule <==>
              && id in ts.byRule
              && !exists i :: 0 <= i < n && rules[i].id == id && rules[i].server == server
                   && rules[i].metric == ConnectionLost
  {
    if n > 0 {
      ClearedInFields(ts, rules, n - 1, server);
    }
  }

  lemma {:induction false} ScheduledInFields(ts: Timers, rules: seq<Rule>, n: nat, server: string, now: int)
    requires n <= |rules|
    ensures OutageTimers(rules, n, ts, ScheduleAll(ts, rules, n, server, now), server, now)
  {
    if n > 0 {
      ScheduledInFields(ts, rules, n - 1, server, now);
    }
  }

  lemma {:induction false} EvaluatedInFields(rules: seq<Rule>, ts: Timers, server: string, status: Status, now: int)
    ensures Evaluated(rules, if status == Connected then ResetAll(rules, server) else rules, ts,
                      Notified(ts, rules, server, status, now), server, status, now)
  {
    ClearedInFields(ts, rules, |rules|, server);
    ScheduledInFields(ts, rules, |rules|, server, now);
    hide OutageTimers, ClearAll, ScheduleAll;
  }

  class ConnectionAlertEngine {
    var rules: seq<Rule>
    var connectionTimers: map<string, TimerId>
    var pending: map<TimerId, Pending>
    var nextTimer: TimerId

    function State(): Timers
      reads this
    {
      Timers(connectionTimers, pending, nextTimer)
    }

    constructor (initial: seq<Rule>)
      ensures rules == initial && State() == Timers(map[], map[], 0)
    {
      rules, connectionTimers, pending, nextTimer := initial, map[], map[], 0;
    }

    method ClearConnectionTimer(id: string)
      modifies this
      ensures State() == Clear(old(State()), id) && rules == old(rules)
    {
      if id in connectionTimers {
        var timer := connectionTimers[id];
        pending := pending - {timer};
        connectionTimers := connectionTimers - {id};
      }
    }

    method ClearConnectionAlertsForServer(server: string)
      modifies this
      ensures State() == ClearAll(old(State()), rules, |rules|, server) && rules == old(rules)
    {
      for i := 0 to |rules|
        invariant rules == old(rules)
        invariant State() == ClearAll(old(State()), rules, i, server)
      {
        if rules[i].server == server && rules[i].metric == ConnectionLost {
          ClearConnectionTimer(rules[i].id);
        }
      }
    }

    method ResetConnectionRules(server: string)
      modifies this
      ensures rules == ResetAll(old(rules), server)
      ensures State() == ClearAll(old(State()), old(rules), |old(rules)|, server)
    {
      ghost var was := rules;
      for i := 0 to |rules|
        invariant |rules| == |was|
        invariant forall k :: 0 <= k < i ==> rules[k] == Reset(was[k], server)
        invariant forall k :: i <= k < |was| ==> rules[k] == was[k]
        invariant State() == ClearAll(old(State()), was, i, server)
      {
        if rules[i].server == server && rules[i].metric == ConnectionLost {
          ClearConnectionTimer(rules[i].id);
          if rules[i].consecutiveBreaches != 0 {
            rules := rules[i := rules[i].(consecutiveBreaches := 0)];
          }
        }
      }
    }

    method EvaluateConnectionStatus(server: string, status: Status, now: int)
      modifies this
      ensures status == Connected ==> rules == ResetAll(old(rules), server)
      ensures status != Connected ==> rules == old(rules)
      ensures State() == Notified(old(State()), old(rules), server, status, now)
      // In the fields of the rules: what each of the statuses does.
      ensures Evaluated(old(rules), rules, old(State()), State(), server, status, now)
    {
      EvaluatedInFields(rules, State(), server, status, now);
      hide Evaluated;
      if status == Connected {
        ResetConnectionRules(server);
        return;
      }
      if status != Disconnected && status != Failed {
        return;
      }
      for i := 0 to |rules|
        invariant rules == old(rules)
        invariant State() == ScheduleAll(old(State()), rules, i, server, now)
      {
        var rule := rules[i];
        if !rule.enabled || rule.server != server || rule.metric != ConnectionLost {
          continue;
        }
        if rule.id in connectionTimers {
          continue;
        }
        var timer := nextTimer;
        nextTimer := nextTimer + 1;
        pending := pending[timer := Pending(rule.id, server, now as real + rule.durationSeconds * 1000.0)];
        connectionTimers := connectionTimers[rule.id := timer];
      }
    }

    method TimerGoesOff(timer: TimerId, current: Status, now: int) returns (alert: Option<Alert>)
      requires timer in pending
      modifies this
      ensures State() == Expire(old(State()), timer)
      ensures var id := old(pending)[timer].rule;
              if StillDown(old(rules), id, current, now)
              then rules == Triggered(old(rules), id, now) && alert == Some(Alert(id, 1.0, now))
              else rules == old(rules) && alert == None
      // An alert takes a connection that is down and the first rule of the name, enabled and past its cooldown.
      ensures alert.Some?
        <==> current != Connected && current != Connecting
             && exists k :: 0 <= k < |old(rules)| && AsksNow(old(rules), k, old(pending)[timer].rule, now)
      ensures alert.Some? ==>
                forall k :: 0 <= k < |old(rules)| && AsksNow(old(rules), k, old(pending)[timer].rule, now) ==>
                  rules == old(rules)[k := old(rules)[k].(lastTriggeredAt := Some(now), consecutiveBreaches := 1)]
    {
      StillDownInFields(rules, pending[timer].rule, current, now);
      var id := pending[timer].rule;
      pending := pending - {timer};
      connectionTimers := connectionTimers - {id};
      alert := FireConnectionAlertIfStillDown(id, current, now);
    }

    method FireConnectionAlertIfStillDown(id: string, current: Status, now: int) returns (alert: Option<Alert>)
      modifies this`rules
      ensures if StillDown(old(rules), id, current, now)
              then rules == Triggered(old(rules), id, now) && alert == Some(Alert(id, 1.0, now))
              else rules == old(rules) && alert == None
    {
      if current == Connected || current == Connecting {
        return None;
      }
      var k := IndexOf(rules, id);
      if k == |rules| || !rules[k].enabled || rules[k].metric != ConnectionLost {
        return None;
      }
      if Cooling(rules[k], now) {
        return None;
      }
      rules := rules[k := rules[k].(lastTriggeredAt := Some(now), consecutiveBreaches := 1)];
      return Some(Alert(id, 1.0, now));
    }
  }

  /** The timers after a status report. */
  function Notified(ts: Timers, rules: seq<Rule>, server: string, status: Status, now: int): Timers {
    if status == Connected then ClearAll(ts, rules, |rules|, server)
    else if IsDown(status) then ScheduleAll(ts, rules, |rules|, server, now)
    else ts
  }

  // ----- The timer map matches the timers that will go off -----

  ghost predicate Paired(ts: Timers) {
    && (forall id :: id in ts.byRule ==> ts.byRule[id] in ts.pending && ts.pending[ts.byRule[id]].rule == id)
    && (forall t :: t in ts.pending ==> ts.pending[t].rule in ts.byRule && ts.byRule[ts.pending[t].rule] == t)
    && (forall t :: t in ts.pending ==> t < ts.next)
  }

  /** So no rule ever has two timers under way. */
  lemma {:induction false} OneTimerPerRule(ts: Timers, t: TimerId, u: TimerId)
    requires Paired(ts) && t in ts.pending && u in ts.pending
    requires ts.pending[t].rule == ts.pending[u].rule
    ensures t == u
  {
    assert ts.byRule[ts.pending[t].rule] == ts.byRule[ts.pending[u].rule];
  }

  lemma {:induction false} SchedulingKeepsPaired(ts: Timers, rules: seq<Rule>, n: nat, server: string, now: int)
    requires Paired(ts) && n <= |rules|
    ensures Paired(ScheduleAll(ts, rules, n, server, now))
    ensures forall t :: t in ts.pending ==>
      t in ScheduleAll(ts, rules, n, server, now).pending &&
        ScheduleAll(ts, rules, n, server, now).pending[t] == ts.pending[t]
    ensures forall i :: 0 <= i < n && rules[i].enabled && Watches(rules[i], server) ==>
      rules[i].id in ScheduleAll(ts, rules, n, server, now).byRule
  {
    if n > 0 {
      SchedulingKeepsPaired(ts, rules, n - 1, server, now);
    }
  }

  lemma {:induction false} ClearKeepsPaired(ts: Timers, id: string)
    requires Paired(ts)
    ensures Paired(Clear(ts, id)) && Clear(ts, id).next == ts.next
    ensures forall t :: t in Clear(ts, id).pending ==> t in ts.pending && Clear(ts, id).pending[t] == ts.pending[t]
    ensures forall t :: t in Clear(ts, id).pending <==> t in ts.pending && ts.pending[t].rule != id
  {
  }

  predicate Listed(rules: seq<Rule>, n: nat, id: string, server: string)
    requires n <= |rules|
  {
    exists i :: 0 <= i < n && rules[i].id == id && Watches(rules[i], server)
  }

  /** Clearing removes exactly the timers of the rules that watch the server now. */
  lemma {:induction false} ClearingKeepsPaired(ts: Timers, rules: seq<Rule>, n: nat, server: string)
    requires Paired(ts) && n <= |rules|
    ensures var after := ClearAll(ts, rules, n, server);
            Paired(after) && after.next == ts.next
    ensures var after := ClearAll(ts, rules, n, server);
            forall t :: t in after.pending <==> t in ts.pending && !Listed(rules, n, ts.pending[t].rule, server)
    ensures var after := ClearAll(ts, rules, n, server);
            forall t :: t in after.pending ==> after.pending[t] == ts.pending[t]
  {
    hide Paired, Clear;
    if n > 0 {
      ClearingKeepsPaired(ts, rules, n - 1, server);
      var before := ClearAll(ts, rules, n - 1, server);
      if Watches(rules[n - 1], server) {
        ClearKeepsPaired(before, rules[n - 1].id);
      }
    }
  }

  /**
   * A reconnect leaves no timer of the server behind exactly when every rule with such a timer still watches that
   * server; a rule that was deleted or moved to another server in the meantime keeps its timer.
   */
  lemma {:induction false} ReconnectClearsExactly(ts: Timers, rules: seq<Rule>, server: string, now: int)
    requires Paired(ts)
    ensures var left := Notified(ts, rules, server, Connected, now).pending;
            (forall t :: t in left ==> left[t].server != server)
            <==> (forall t :: t in ts.pending && ts.pending[t].server == server ==>
              Listed(rules, |rules|, ts.pending[t].rule, server))
  {
    ClearingKeepsPaired(ts, rules, |rules|, server);
  }

  lemma {:induction false} ExpireKeepsPaired(ts: Timers, t: TimerId)
    requires Paired(ts) && t in ts.pending
    ensures Paired(Expire(ts, t))
    ensures forall u :: u in Expire(ts, t).pending <==> u in ts.pending && u != t
  {
  }

  // ----- Runs: an alert means an outage that lasted -----

  datatype Event =
    | Report(server: string, status: Status, now: int)
    | GoOff(timer: TimerId, current: Status, now: int)
    | Forget(server: string)
    | Edit(rules: seq<Rule>)

  datatype World = World(rules: seq<Rule>, timers: Timers)

  /** A timer does not go off early. */
  predicate Enabled(w: World, e: Event) {
    e.GoOff? ==> e.timer in w.timers.pending && e.now as real >= w.timers.pending[e.timer].due
  }

  function Apply(w: World, e: Event): World
    requires Enabled(w, e)
  {
    match e
    case Report(server, status, now) =>
      World(if status == Connected then ResetAll(w.rules, server) else w.rules,
            Notified(w.timers, w.rules, server, status, now))
    case GoOff(timer, current, now) =>
      var id := w.timers.pending[timer].rule;
      World(if StillDown(w.rules, id, current, now) then Triggered(w.rules, id, now) else w.rules,
            Expire(w.timers, timer))
    case Forget(server) => World(w.rules, ClearAll(w.timers, w.rules, |w.rules|, server))
    case Edit(rules) => World(rules, w.timers)
  }

  ghost predicate IsRun(rules: seq<Rule>, events: seq<Event>)
    decreases |events|, 0
  {
    events == [] ||
    (IsRun(rules, events[..|events| - 1]) && Enabled(After(rules, events[..|events| - 1]), events[|events| - 1]))
  }

  ghost function After(rules: seq<Rule>, events: seq<Event>): World
    requires IsRun(rules, events)
    decreases |events|
  {
    if events == [] then World(rules, Timers(map[], map[], 0))
    else Apply(After(rules, events[..|events| - 1]), events[|events| - 1])
  }

  /** p is the timer that an outage report at this moment sets for one of the rules. */
  predicate Begins(rules: seq<Rule>, n: nat, p: Pending, server: string, now: int)
    requires n <= |rules|
  {
    exists i :: 0 <= i < n && rules[i].enabled && Watches(rules[i], server)
                && p == Pending(rules[i].id, server, now as real + rules[i].durationSeconds * 1000.0)
  }

  lemma {:induction false} ScheduledEntries(ts: Timers, rules: seq<Rule>, n: nat, server: string, now: int)
    requires Paired(ts) && n <= |rules|
    ensures var after := ScheduleAll(ts, rules, n, server, now).pending;
            forall t :: t in after ==>
                     (t in ts.pending && after[t] == ts.pending[t]) || Begins(rules, n, after[t], server, now)
  {
    if n > 0 {
      ScheduledEntries(ts, rules, n - 1, server, now);
      var before := ScheduleAll(ts, rules, n - 1, server, now).pending;
      var after := ScheduleAll(ts, rules, n, server, now).pending;
      forall t | t in after
        ensures (t in ts.pending && after[t] == ts.pending[t]) || Begins(rules, n, after[t], server, now)
      {
        if t in before && before[t] == after[t] {
          if Begins(rules, n - 1, before[t], server, now) {
            var i :| 0 <= i < n - 1 && rules[i].enabled && Watches(rules[i], server)
                     && before[t] == Pending(rules[i].id, server, now as real + rules[i].durationSeconds * 1000.0);
            assert Begins(rules, n, after[t], server, now);
          }
        } else {
          assert rules[n - 1].enabled && Watches(rules[n - 1], server);
        }
      }
    }
  }

  predicate Heals(e: Event, server: string) {
    (e.Report? && e.server == server && e.status == Connected) || e == Forget(server)
  }

  lemma {:induction false} StepKeepsPaired(w: World, e: Event)
    requires Paired(w.timers) && Enabled(w, e)
    ensures Paired(Apply(w, e).timers)
  {
    hide Paired, ScheduleAll, ClearAll;
    match e
    case Report(server, status, now) =>
      ClearingKeepsPaired(w.timers, w.rules, |w.rules|, server);
      SchedulingKeepsPaired(w.timers, w.rules, |w.rules|, server, now);
    case GoOff(timer, current, now) => ExpireKeepsPaired(w.timers, timer);
    case Forget(server) => ClearingKeepsPaired(w.timers, w.rules, |w.rules|, server);
    case Edit(_) =>
  }

  /** A timer under way after a step was under way before and not cleared, or an outage report has just set it. */
  lemma {:induction false} StepEntries(w: World, e: Event, t: TimerId)
    requires Paired(w.timers) && Enabled(w, e) && t in Apply(w, e).timers.pending
    ensures var p := Apply(w, e).timers.pending[t];
            if t in w.timers.pending
            then w.timers.pending[t] == p && !(Heals(e, p.server) && Listed(w.rules, |w.rules|, p.rule, p.server))
            else e.Report? && IsDown(e.status) && Begins(w.rules, |w.rules|, p, e.server, e.now)
  {
    hide ScheduleAll, ClearAll, Begins, Listed;
    match e
    case Report(server, status, now) =>
      if status == Connected {
        ClearingKeepsPaired(w.timers, w.rules, |w.rules|, server);
      } else if IsDown(status) {
        SchedulingKeepsPaired(w.timers, w.rules, |w.rules|, server, now);
        ScheduledEntries(w.timers, w.rules, |w.rules|, server, now);
      }
    case GoOff(timer, current, now) =>
    case Forget(server) => ClearingKeepsPaired(w.timers, w.rules, |w.rules|, server);
    case Edit(_) =>
  }

  /** The event since which the timer has been under way. */
  ghost function Since(rules: seq<Rule>, events: seq<Event>, t: TimerId): (j: nat)
    requires IsRun(rules, events) && t in After(rules, events).timers.pending
    ensures j < |events| && IsRun(rules, events[..j])
    decreases |events|
  {
    var n := |events| - 1;
    if t in After(rules, events[..n]).timers.pending then
      var j := Since(rules, events[..n], t);
      assert events[..n][..j] == events[..j];
      j
    else n
  }

  /** The rule of the timer watches its server at this point of the run. */
  ghost predicate ListedAt(rules: seq<Rule>, events: seq<Event>, k: nat, p: Pending) {
    k <= |events| && IsRun(rules, events[..k])
    && Listed(After(rules, events[..k]).rules, |After(rules, events[..k]).rules|, p.rule, p.server)
  }

  /** No reconnect of the server has been reported after event j. */
  predicate Unbroken(events: seq<Event>, j: nat, server: string) {
    forall k :: j < k < |events| ==> !Heals(events[k], server)
  }

  /** An outage report at j set the timer, and each reconnect since found the rule watching elsewhere. */
  ghost predicate Explained(rules: seq<Rule>, events: seq<Event>, t: TimerId)
    requires IsRun(rules, events) && t in After(rules, events).timers.pending
  {
    var j, p := Since(rules, events, t), After(rules, events).timers.pending[t];
    var before := After(rules, events[..j]).rules;
    && events[j].Report? && IsDown(events[j].status)
    && Begins(before, |before|, p, events[j].server, events[j].now)
    && forall k :: j < k < |events| && Heals(events[k], p.server) ==> !ListedAt(rules, events, k, p)
  }

  lemma {:induction false} StillExplained(rules: seq<Rule>, events: seq<Event>, t: TimerId)
    requires events != [] && IsRun(rules, events) && t in After(rules, events).timers.pending
    requires var w := After(rules, events[..|events| - 1]);
             Paired(w.timers) && (t in w.timers.pending ==> Explained(rules, events[..|events| - 1], t))
    ensures Explained(rules, events, t)
  {
    hide Begins, Listed, Paired, Apply;
    var n := |events| - 1;
    var before := events[..n];
    StepEntries(After(rules, before), events[n], t);
    if t in After(rules, before).timers.pending {
      var j, p := Since(rules, before, t), After(rules, events).timers.pending[t];
      assert before[..j] == events[..j] && before[j] == events[j];
      forall k | j < k < |events| && Heals(events[k], p.server) ensures !ListedAt(rules, events, k, p) {
        if k < n {
          assert before[..k] == events[..k] && before[k] == events[k];
          assert ListedAt(rules, before, k, p) == ListedAt(rules, events, k, p);
        }
      }
    }
  }

  lemma {:induction false} TimersAreExplained(rules: seq<Rule>, events: seq<Event>)
    requires IsRun(rules, events)
    ensures var w := After(rules, events);
            Paired(w.timers) && forall t :: t in w.timers.pending ==> Explained(rules, events, t)
    decreases |events|
  {
    if events != [] {
      hide Explained, Paired, Apply;
      var n := |events| - 1;
      TimersAreExplained(rules, events[..n]);
      StepKeepsPaired(After(rules, events[..n]), events[n]);
      forall t | t in After(rules, events).timers.pending ensures Explained(rules, events, t) {
        StillExplained(rules, events, t);
      }
    } else {
      assert Paired(After(rules, events).timers);
    }
  }

  /** From `began` to `now` passes at least the duration of the timer's rule. */
  predicate LastsLong(rules: seq<Rule>, p: Pending, began: int, now: int) {
    exists i :: 0 <= i < |rules| && rules[i].id == p.rule && Watches(rules[i], p.server)
                && (now - began) as real >= rules[i].durationSeconds * 1000.0
  }

  lemma {:induction false} BeginsLasts(rules: seq<Rule>, p: Pending, server: string, began: int, now: int)
    requires Begins(rules, |rules|, p, server, began) && now as real >= p.due
    ensures LastsLong(rules, p, began, now)
  {
    var i :| 0 <= i < |rules| && rules[i].enabled && Watches(rules[i], server)
             && p == Pending(rules[i].id, server, began as real + rules[i].durationSeconds * 1000.0);
    assert rules[i].id == p.rule && Watches(rules[i], p.server);
  }

  /**
   * A timer that goes off was set by an outage report at least the rule's duration earlier. The outage has lasted
   * since, with no reconnect reported, if and only if the rule was watching the server at each reconnect reported
   * since.
   */
  lemma {:induction false} AlertMeansLongOutage(rules: seq<Rule>, events: seq<Event>, e: Event)
    requires IsRun(rules, events + [e]) && e.GoOff?
    ensures IsRun(rules, events) && e.timer in After(rules, events).timers.pending
    ensures var j, p := Since(rules, events, e.timer), After(rules, events).timers.pending[e.timer];
            && events[j].Report? && IsDown(events[j].status) && events[j].server == p.server
            && LastsLong(After(rules, events[..j]).rules, p, events[j].now, e.now)
            && (Unbroken(events, j, p.server) <==>
                forall k :: j < k < |events| && Heals(events[k], p.server) ==> ListedAt(rules, events, k, p))
  {
    hide Begins, LastsLong, Paired, Apply, ListedAt, Heals;
    assert (events + [e])[..|events|] == events;
    TimersAreExplained(rules, events);
    var j, p := Since(rules, events, e.timer), After(rules, events).timers.pending[e.timer];
    assert Explained(rules, events, e.timer);
    BeginsListed(After(rules, events[..j]).rules, p, events[j].server, events[j].now);
    BeginsLasts(After(rules, events[..j]).rules, p, events[j].server, events[j].now, e.now);
  }

  lemma {:induction false} ListedAlike(rules: seq<Rule>, other: seq<Rule>, id: string, server: string)
    requires |rules| == |other| && Listed(rules, |rules|, id, server)
    requires forall i :: 0 <= i < |rules| ==>
      other[i].id == rules[i].id && other[i].server == rules[i].server && other[i].metric == rules[i].metric
    ensures Listed(other, |other|, id, server)
  {
    var i :| 0 <= i < |rules| && rules[i].id == id && Watches(rules[i], server);
    assert other[i].id == id && Watches(other[i], server);
  }

  /** The edit, if it is one, leaves the rule of the timer watching its server. */
  predicate LeavesListed(e: Event, p: Pending) {
    e.Edit? ==> Listed(e.rules, |e.rules|, p.rule, p.server)
  }

  lemma {:induction false} StepKeepsListed(w: World, e: Event, p: Pending)
    requires Enabled(w, e) && LeavesListed(e, p) && Listed(w.rules, |w.rules|, p.rule, p.server)
    ensures Listed(Apply(w, e).rules, |Apply(w, e).rules|, p.rule, p.server)
  {
    hide Listed, Notified, Expire, ClearAll, StillDown;
    if !e.Edit? {
      ListedAlike(w.rules, Apply(w, e).rules, p.rule, p.server);
    }
  }

  lemma {:induction false} ListedStays(rules: seq<Rule>, events: seq<Event>, j: nat, k: nat, p: Pending)
    requires IsRun(rules, events) && j <= k <= |events| && ListedAt(rules, events, j, p)
    requires forall m :: j <= m < k ==> LeavesListed(events[m], p)
    requires forall m :: j <= m <= k ==> IsRun(rules, events[..m])
    ensures ListedAt(rules, events, k, p)
    decreases k
  {
    if j < k {
      ListedStays(rules, events, j, k - 1, p);
      assert events[..k][..k - 1] == events[..k - 1];
      hide Listed, Apply, LeavesListed;
      StepKeepsListed(After(rules, events[..k - 1]), events[k - 1], p);
    }
  }

  lemma {:induction false} RunPrefix(rules: seq<Rule>, events: seq<Event>, k: nat)
    requires IsRun(rules, events) && k <= |events|
    ensures IsRun(rules, events[..k])
    decreases |events|
  {
    if k < |events| {
      RunPrefix(rules, events[..|events| - 1], k);
      assert events[..|events| - 1][..k] == events[..k];
    } else {
      assert events[..k] == events;
    }
  }

  /** So while no edit moves the rule away from the server, the outage behind its timer is unbroken. */
  lemma {:induction false} OutageIsUnbroken(rules: seq<Rule>, events: seq<Event>, t: TimerId)
    requires IsRun(rules, events) && t in After(rules, events).timers.pending
    requires forall k :: Since(rules, events, t) < k < |events| ==>
      LeavesListed(events[k], After(rules, events).timers.pending[t])
    ensures Unbroken(events, Since(rules, events, t), After(rules, events).timers.pending[t].server)
  {
    var j, p := Since(rules, events, t), After(rules, events).timers.pending[t];
    hide Begins, Paired, Apply, Listed, Heals;
    TimersAreExplained(rules, events);
    assert Explained(rules, events, t);
    BeginsListed(After(rules, events[..j]).rules, p, events[j].server, events[j].now);
    forall k | j < k < |events| ensures !Heals(events[k], p.server) {
      forall m | 0 <= m <= k ensures IsRun(rules, events[..m]) {
        RunPrefix(rules, events, m);
      }
      ListedStays(rules, events, j, k, p);
    }
  }

  lemma {:induction false} BeginsListed(rules: seq<Rule>, p: Pending, server: string, now: int)
    requires Begins(rules, |rules|, p, server, now)
    ensures p.server == server && Listed(rules, |rules|, p.rule, server)
  {
  }

  // ----- A run in which the outage is not the one that set the timer -----

  function Watching(server: string): Rule {
    Rule("r", server, ConnectionLost, Gt, 0.0, 60.0, 0.0, true, None, 0)
  }

  lemma {:induction false} OneMore(rules: seq<Rule>, events: seq<Event>, e: Event)
    requires IsRun(rules, events) && Enabled(After(rules, events), e)
    ensures IsRun(rules, events + [e]) && After(rules, events + [e]) == Apply(After(rules, events), e)
  {
    assert (events + [e])[..|events|] == events;
  }

  function Set60(rule: Rule): World {
    World([rule], Timers(map["r" := 0], map[0 := Pending("r", "a", 61000.0)], 1))
  }

  /** An outage sets the rule's timer. */
  lemma {:induction false} Sets()
    ensures Apply(World([Watching("a")], Timers(map[], map[], 0)), Event.Report("a", Disconnected, 1000))
              == Set60(Watching("a"))
  {
    var none, rules := Timers(map[], map[], 0), [Watching("a")];
    assert ScheduleAll(none, rules, 0, "a", 1000) == none;
    assert Schedule(none, rules[0], "a", 1000) == Set60(rules[0]).timers;
  }

  /** Once the rule has moved to another server, reports about the old one leave its timer alone. */
  lemma {:induction false} Ignores(status: Status, now: int)
    ensures Apply(Set60(Watching("b")), Event.Report("a", status, now)) == Set60(Watching("b"))
  {
    var w := Set60(Watching("b"));
    assert ClearAll(w.timers, w.rules, 0, "a") == w.timers && ScheduleAll(w.timers, w.rules, 0, "a", now) == w.timers;
    assert ResetAll(w.rules, "a") == w.rules;
  }

  /**
   * A rule with a duration of a minute is moved to another server while its timer runs. The old server reconnects and
   * goes down again; one second later the timer goes off and raises an alert.
   */
  lemma {:induction false} MovedRuleAlertsEarly() returns (rules: seq<Rule>, events: seq<Event>, e: Event)
    ensures IsRun(rules, events) && Enabled(After(rules, events), e) && Alerts(After(rules, events), e, "r")
    ensures After(rules, events).timers.pending[e.timer] == Pending("r", "a", 61000.0)
    ensures |events| == 4 && events[2] == Event.Report("a", Connected, 2000)
    ensures events[3] == Event.Report("a", Disconnected, 60000)
    ensures e == GoOff(0, Disconnected, 61000) && rules == [Watching("a")]
  {
    rules := [Watching("a")];
    e := GoOff(0, Disconnected, 61000);
    hide Notified, ResetAll, Schedule;
    var one, two := Event.Report("a", Disconnected, 1000), Edit([Watching("b")]);
    var three, four := Event.Report("a", Connected, 2000), Event.Report("a", Disconnected, 60000);
    Sets();
    OneMore(rules, [], one);
    assert [] + [one] == [one];
    OneMore(rules, [one], two);
    assert [one] + [two] == [one, two];
    Ignores(Connected, 2000);
    OneMore(rules, [one, two], three);
    assert [one, two] + [three] == [one, two, three];
    Ignores(Disconnected, 60000);
    OneMore(rules, [one, two, three], four);
    events := [one, two, three] + [four];
    assert IndexOf([Watching("b")], "r") == 0;
  }

  // ----- Runs: the cooldown between two alerts -----

  /** The step raises an alert for the rule. */
  predicate Alerts(w: World, e: Event, id: string) {
    e.GoOff? && Enabled(w, e) && w.timers.pending[e.timer].rule == id && StillDown(w.rules, id, e.current, e.now)
  }

  /** When the rule triggered last, if there is such a rule. */
  function LastTriggered(rules: seq<Rule>, id: string): Option<Option<int>> {
    var k := IndexOf(rules, id);
    if k < |rules| then Some(rules[k].lastTriggeredAt) else None
  }

  lemma {:induction false} SamePlace(rules: seq<Rule>, other: seq<Rule>, id: string)
    requires |rules| == |other| && forall i :: 0 <= i < |rules| ==> other[i].id == rules[i].id
    ensures IndexOf(rules, id) == IndexOf(other, id)
  {
  }

  lemma {:induction false} StepKeepsLast(w: World, e: Event, id: string)
    requires Enabled(w, e) && !e.Edit? && !Alerts(w, e, id)
    ensures LastTriggered(Apply(w, e).rules, id) == LastTriggered(w.rules, id)
  {
    hide Schedule, ScheduleAll, ClearAll, StillDown, Notified;
    SamePlace(w.rules, Apply(w, e).rules, id);
  }

  lemma {:induction false} AlertSetsLast(w: World, e: Event, id: string)
    requires Alerts(w, e, id)
    ensures LastTriggered(Apply(w, e).rules, id) == Some(Some(e.now))
  {
    SamePlace(w.rules, Apply(w, e).rules, id);
  }

  /** No event from i up to the end edits the rules or alerts for this one. */
  ghost predicate QuietSince(rules: seq<Rule>, events: seq<Event>, i: nat, id: string)
    requires IsRun(rules, events)
  {
    forall k :: i <= k < |events| ==>
      !events[k].Edit? && IsRun(rules, events[..k]) && !Alerts(After(rules, events[..k]), events[k], id)
  }

  lemma {:induction false} QuietKeepsLast(rules: seq<Rule>, events: seq<Event>, i: nat, id: string)
    requires IsRun(rules, events) && i <= |events| && IsRun(rules, events[..i]) && QuietSince(rules, events, i, id)
    ensures LastTriggered(After(rules, events).rules, id) == LastTriggered(After(rules, events[..i]).rules, id)
    decreases |events|
  {
    if i == |events| {
      assert events[..i] == events;
    } else {
      hide LastTriggered, Alerts, Apply, Enabled;
      var n := |events| - 1;
      var before := events[..n];
      assert before[..i] == events[..i];
      forall k | i <= k < n
        ensures !before[k].Edit? && IsRun(rules, before[..k]) && !Alerts(After(rules, before[..k]), before[k], id)
      {
        assert before[..k] == events[..k] && before[k] == events[k];
      }
      QuietKeepsLast(rules, before, i, id);
      StepKeepsLast(After(rules, before), events[n], id);
    }
  }

  /** Two successive alerts for a connection rule are at least its cooldown apart, whatever the clock does. */
  lemma {:induction false} SuccessiveConnectionAlertsAreSpaced(rules: seq<Rule>, events: seq<Event>, i: nat, e: Event,
                                                               id: string)
    requires IsRun(rules, events) && i < |events| && IsRun(rules, events[..i]) && IsRun(rules, events[..i + 1])
    requires Alerts(After(rules, events[..i]), events[i], id) && events[i].now != 0
    requires QuietSince(rules, events, i + 1, id)
    requires Alerts(After(rules, events), e, id)
    ensures var current := After(rules, events).rules;
            (e.now - events[i].now) as real >= CooldownMillis(current[IndexOf(current, id)])
  {
    hide Apply;
    assert events[..i + 1][..i] == events[..i] && events[..i + 1][i] == events[i];
    AlertSetsLast(After(rules, events[..i]), events[i], id);
    QuietKeepsLast(rules, events, i + 1, id);
  }
}
