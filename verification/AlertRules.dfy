/** Alert rules over metric readings: counting consecutive breaches and cooling down after an alert. */
module AlertRules {
  import opened Wrappers

  datatype Metric =
    CpuPercent | MemoryPercent | DiskPercent | NetworkRxBytes | NetworkTxBytes | ConnectionLost | Other(name: string)

  datatype Operator = Gt | Lt | Eq

  datatype Rule = Rule(
    id: string,
    server: string,
    metric: Metric,
    operator: Operator,
    threshold: real,
    durationSeconds: real,
    cooldownMinutes: real,
    enabled: bool,
    lastTriggeredAt: Option<int>,
    consecutiveBreaches: nat)

  datatype Disk = Disk(mountpoint: string, percent: real)
  datatype Network = Network(rxBytes: nat, txBytes: nat)
  datatype Metrics = Metrics(server: string, cpu: real, memory: real, disks: seq<Disk>, networks: seq<Network>)

  function SumRx(networks: seq<Network>): nat {
    if networks == [] then 0 else networks[0].rxBytes + SumRx(networks[1..])
  }

  function SumTx(networks: seq<Network>): nat {
    if networks == [] then 0 else networks[0].txBytes + SumTx(networks[1..])
  }

  /** The disk mounted at the root, or else the first one. */
  function PrimaryDisk(disks: seq<Disk>, first: Option<Disk>): Option<Disk> {
    if disks == [] then first
    else if disks[0].mountpoint == "/" then Some(disks[0])
    else PrimaryDisk(disks[1..], first)
  }

  function ExtractMetricValue(m: Metrics, metric: Metric): Option<real> {
    match metric
    case CpuPercent => Some(m.cpu)
    case MemoryPercent => Some(m.memory)
    case DiskPercent =>
      var primary := PrimaryDisk(m.disks, if m.disks == [] then None else Some(m.disks[0]));
      if primary.Some? then Some(primary.value.percent) else None
    case NetworkRxBytes => Some(SumRx(m.networks) as real)
    case NetworkTxBytes => Some(SumTx(m.networks) as real)
    case _ => None
  }

  predicate Breaches(rule: Rule, value: real) {
    match rule.operator
    case Gt => value > rule.threshold
    case Lt => value < rule.threshold
    case Eq => value == rule.threshold
  }

  /** The ceiling of a fifth of the duration. */
  function RequiredBreaches(rule: Rule): int {
    -((-rule.durationSeconds / 5.0).Floor)
  }

  function CooldownMillis(rule: Rule): real {
    rule.cooldownMinutes * 60.0 * 1000.0
  }

  /** A rule that never triggered carries no time, and time zero counts as none. */
  predicate Cooling(rule: Rule, now: int) {
    rule.lastTriggeredAt.Some? && rule.lastTriggeredAt.value != 0 &&
      (now - rule.lastTriggeredAt.value) as real < CooldownMillis(rule)
  }

  /** The value the rule looks at, if it looks at these metrics at all and they carry one. */
  function Reading(rule: Rule, m: Metrics): Option<real> {
    if rule.enabled && rule.server == m.server && rule.metric != ConnectionLost
    then ExtractMetricValue(m, rule.metric)
    else None
  }

  function Counted(rule: Rule, value: real): Rule {
    rule.(consecutiveBreaches := if Breaches(rule, value) then rule.consecutiveBreaches + 1 else 0)
  }

  predicate Fires(rule: Rule, reading: Option<real>, now: int) {
    && reading.Some?
    && Breaches(rule, reading.value)
    && Counted(rule, reading.value).consecutiveBreaches >= RequiredBreaches(rule)
    && !Cooling(rule, now)
  }

  function Judged(rule: Rule, reading: Option<real>, now: int): Rule {
    if reading.None? then rule
    else if Fires(rule, reading, now) then Counted(rule, reading.value).(lastTriggeredAt := Some(now))
    else Counted(rule, reading.value)
  }

  // ----- Evaluating one report against all rules -----

  datatype Alert = Alert(rule: string, value: real, at: int)

  function JudgedAll(rules: seq<Rule>, m: Metrics, now: int): seq<Rule> {
    seq(|rules|, i requires 0 <= i < |rules| => Judged(rules[i], Reading(rules[i], m), now))
  }

  /** The alerts that the first n rules raise, in rule order. */
  function AlertsOf(rules: seq<Rule>, n: nat, m: Metrics, now: int): seq<Alert>
    requires n <= |rules|
  {
    if n == 0 then []
    else
      var rule := rules[n - 1];
      var reading := Reading(rule, m);
      AlertsOf(rules, n - 1, m, now) + if Fires(rule, reading, now) then [Alert(rule.id, reading.value, now)] else []
  }

  /** The value is on the far side of the threshold, or on it. */
  predicate Past(operator: Operator, value: real, threshold: real) {
    && (operator == Gt ==> value > threshold)
    && (operator == Lt ==> value < threshold)
    && (operator == Eq ==> value == threshold)
  }

  /** The value is past the threshold, long enough by the counter, and the cooldown in minutes is over. */
  predicate FiresNow(rule: Rule, value: real, now: int) {
    && Past(rule.operator, value, rule.threshold)
    && 5.0 * (rule.consecutiveBreaches + 1) as real >= rule.durationSeconds
    && (rule.lastTriggeredAt.Some? && rule.lastTriggeredAt.value != 0 ==>
          (now - rule.lastTriggeredAt.value) as real >= rule.cooldownMinutes * 60_000.0)
  }

  /** One more value counts up or starts over, and only a firing rule gets a new time. */
  predicate JudgedBy(before: Rule, after: Rule, reading: Option<real>, now: int) {
    match reading
    case None => after == before
    case Some(value) =>
      && after == before.(consecutiveBreaches := after.consecutiveBreaches, lastTriggeredAt := after.lastTriggeredAt)
      && after.consecutiveBreaches
         == (if Past(before.operator, value, before.threshold) then before.consecutiveBreaches + 1 else 0)
      && after.lastTriggeredAt == (if FiresNow(before, value, now) then Some(now) else before.lastTriggeredAt)
  }

  lemma {:induction false} FiresInFields(rule: Rule, value: real, now: int)
    ensures Fires(rule, Some(value), now) <==> FiresNow(rule, value, now)
  {
    CeilingOfFifth(rule, rule.consecutiveBreaches + 1);
    hide RequiredBreaches;
  }

  lemma {:induction false} JudgedInFields(rule: Rule, reading: Option<real>, now: int)
    ensures JudgedBy(rule, Judged(rule, reading, now), reading, now)
  {
    if reading.Some? {
      FiresInFields(rule, reading.value, now);
    }
    hide RequiredBreaches, Cooling;
  }

  /** The alerts of a report are those of the rules that fire on it, with the value read. */
  lemma {:induction false} AlertsInFields(rules: seq<Rule>, n: nat, m: Metrics, now: int, alert: Alert)
    requires n <= |rules|
    ensures alert in AlertsOf(rules, n, m, now) <==>
            exists i :: 0 <= i < n && Reading(rules[i], m) == Some(alert.value)
              && FiresNow(rules[i], alert.value, now) && alert.rule == rules[i].id && alert.at == now
  {
    if n > 0 {
      AlertsInFields(rules, n - 1, m, now, alert);
      if Reading(rules[n - 1], m).Some? {
        FiresInFields(rules[n - 1], Reading(rules[n - 1], m).value, now);
      }
      hide FiresNow, Fires, Reading;
    }
  }

  /** In the fields: what becomes of each rule, and which alerts are raised. */
  predicate Reported(before: seq<Rule>, after: seq<Rule>, alerts: seq<Alert>, m: Metrics, now: int) {
    && |after| == |before|
    && (forall i :: 0 <= i < |before| ==> JudgedBy(before[i], after[i], Reading(before[i], m), now))
    && (forall alert :: alert in alerts ==> RaisedBy(before, alert, m, now))
    && (forall i :: 0 <= i < |before| ==>
          var reading := Reading(before[i], m);
          reading.Some? && FiresNow(before[i], reading.value, now) ==>
            Alert(before[i].id, reading.value, now) in alerts)
  }

  /** Some rule fires on the report with this value. */
  predicate RaisedBy(rules: seq<Rule>, alert: Alert, m: Metrics, now: int) {
    exists i :: 0 <= i < |rules| && Reading(rules[i], m) == Some(alert.value)
      && FiresNow(rules[i], alert.value, now) && alert.rule == rules[i].id && alert.at == now
  }

  lemma {:induction false} ReportInFields(rules: seq<Rule>, m: Metrics, now: int)
    ensures Reported(rules, JudgedAll(rules, m, now), AlertsOf(rules, |rules|, m, now), m, now)
  {
    var alerts := AlertsOf(rules, |rules|, m, now);
    forall i | 0 <= i < |rules| ensures JudgedBy(rules[i], JudgedAll(rules, m, now)[i], Reading(rules[i], m), now) {
      JudgedInFields(rules[i], Reading(rules[i], m), now);
    }
    hide JudgedBy, JudgedAll, FiresNow, Reading;
    forall alert | alert in alerts ensures RaisedBy(rules, alert, m, now) {
      AlertsInFields(rules, |rules|, m, now, alert);
    }
    forall i | 0 <= i < |rules| && Reading(rules[i], m).Some? && FiresNow(rules[i], Reading(rules[i], m).value, now)
      ensures Alert(rules[i].id, Reading(rules[i], m).value, now) in alerts
    {
      AlertsInFields(rules, |rules|, m, now, Alert(rules[i].id, Reading(rules[i], m).value, now));
    }
  }

  class MetricAlerts {
    var rules: seq<Rule>

    constructor (initial: seq<Rule>)
      ensures rules == initial
    {
      rules := initial;
    }

    method Evaluate(m: Metrics, now: int) returns (alerts: seq<Alert>)
      modifies this
      ensures rules == JudgedAll(old(rules), m, now)
      ensures alerts == AlertsOf(old(rules), |old(rules)|, m, now)
      ensures Reported(old(rules), rules, alerts, m, now)
    {
      ReportInFields(rules, m, now);
      hide Reported;
      hide ExtractMetricValue, Breaches, RequiredBreaches, Cooling;
      alerts := [];
      ghost var was := rules;
      for i := 0 to |rules|
        invariant |rules| == |was|
        invariant forall k :: 0 <= k < i ==> rules[k] == Judged(was[k], Reading(was[k], m), now)
        invariant forall k :: i <= k < |was| ==> rules[k] == was[k]
        invariant alerts == AlertsOf(was, i, m, now)
      {
        var rule := rules[i];
        if !rule.enabled || rule.server != m.server || rule.metric == ConnectionLost {
          continue;
        }
        var value := ExtractMetricValue(m, rule.metric);
        if value.None? {
          continue;
        }
        if !Breaches(rule, value.value) {
          rules := rules[i := rule.(consecutiveBreaches := 0)];
          continue;
        }
        var breaches := rule.consecutiveBreaches + 1;
        rules := rules[i := rule.(consecutiveBreaches := breaches)];
        if breaches < RequiredBreaches(rule) {
          continue;
        }
        if Cooling(rule, now) {
          continue;
        }
        rules := rules[i := rules[i].(lastTriggeredAt := Some(now))];
        alerts := alerts + [Alert(rule.id, value.value, now)];
      }
    }
  }

  // ----- The history of one rule -----

  datatype Report = Report(metrics: Metrics, at: int)

  function After(rule: Rule, reports: seq<Report>): Rule {
    if reports == [] then rule
    else
      var n := |reports| - 1;
      var before := After(rule, reports[..n]);
      Judged(before, Reading(before, reports[n].metrics), reports[n].at)
  }

  function AfterAll(rules: seq<Rule>, reports: seq<Report>): seq<Rule> {
    if reports == [] then rules
    else
      var n := |reports| - 1;
      JudgedAll(AfterAll(rules, reports[..n]), reports[n].metrics, reports[n].at)
  }

  /** Rules do not influence one another: evaluating all of them follows each one's own history. */
  lemma {:induction false} RulesAreIndependent(rules: seq<Rule>, reports: seq<Report>)
    ensures |AfterAll(rules, reports)| == |rules|
    ensures forall i :: 0 <= i < |rules| ==> AfterAll(rules, reports)[i] == After(rules[i], reports)
  {
    if reports != [] {
      RulesAreIndependent(rules, reports[..|reports| - 1]);
    }
  }

  predicate SamePolicy(one: Rule, other: Rule) {
    one == other.(lastTriggeredAt := one.lastTriggeredAt, consecutiveBreaches := one.consecutiveBreaches)
  }

  lemma {:induction false} PolicyStays(rule: Rule, reports: seq<Report>)
    ensures SamePolicy(After(rule, reports), rule)
  {
    if reports != [] {
      PolicyStays(rule, reports[..|reports| - 1]);
    }
  }

  /** The values that the rule has seen. */
  function Values(rule: Rule, reports: seq<Report>): seq<real> {
    if reports == [] then []
    else
      var n := |reports| - 1;
      var reading := Reading(rule, reports[n].metrics);
      Values(rule, reports[..n]) + if reading.Some? then [reading.value] else []
  }

  /** n is the length of the longest run of breaching values that ends the history. */
  predicate IsTrailingRun(rule: Rule, values: seq<real>, n: int) {
    && 0 <= n <= |values|
    && (forall i :: |values| - n <= i < |values| ==> Breaches(rule, values[i]))
    && (n < |values| ==> !Breaches(rule, values[|values| - n - 1]))
  }

  lemma {:induction false} TrailingRunIsUnique(rule: Rule, values: seq<real>, n: int, m: int)
    requires IsTrailingRun(rule, values, n) && IsTrailingRun(rule, values, m)
    ensures n == m
  {
  }

  /** The counter of a rule that starts at zero is the length of the trailing run of breaching values. */
  lemma {:induction false} CounterIsTrailingRun(rule: Rule, reports: seq<Report>)
    requires rule.consecutiveBreaches == 0
    ensures IsTrailingRun(rule, Values(rule, reports), After(rule, reports).consecutiveBreaches)
  {
    if reports != [] {
      var n := |reports| - 1;
      CounterIsTrailingRun(rule, reports[..n]);
      PolicyStays(rule, reports[..n]);
    }
  }

  predicate FiresAt(rule: Rule, reports: seq<Report>, k: nat)
    requires k < |reports|
  {
    var before := After(rule, reports[..k]);
    Fires(before, Reading(before, reports[k].metrics), reports[k].at)
  }

  /** The times of the alerts raised so far. */
  function Firings(rule: Rule, reports: seq<Report>): seq<int> {
    if reports == [] then []
    else
      var n := |reports| - 1;
      Firings(rule, reports[..n]) + if FiresAt(rule, reports, n) then [reports[n].at] else []
  }

  function LatestFiring(rule: Rule, reports: seq<Report>): Option<int> {
    var firings := Firings(rule, reports);
    if firings == [] then rule.lastTriggeredAt else Some(firings[|firings| - 1])
  }

  lemma {:induction false} LastTriggeredIsLatestFiring(rule: Rule, reports: seq<Report>)
    ensures After(rule, reports).lastTriggeredAt == LatestFiring(rule, reports)
  {
    if reports != [] {
      var n := |reports| - 1;
      LastTriggeredIsLatestFiring(rule, reports[..n]);
    }
  }

  lemma {:induction false} CeilingOfFifth(rule: Rule, n: int)
    ensures n >= RequiredBreaches(rule) <==> 5.0 * n as real >= rule.durationSeconds
  {
    var x := -rule.durationSeconds / 5.0;
    assert x.Floor as real <= x < x.Floor as real + 1.0;
    assert n >= RequiredBreaches(rule) <==> -n <= x.Floor;
    assert -n <= x.Floor <==> (-n) as real <= x;
  }

  /**
   * A rule raises an alert on a report exactly when the report's value ends a run of breaching values that covers
   * the duration at one value every five seconds, and the latest alert is at least a cooldown ago.
   */
  lemma {:induction false} FiresExactly(rule: Rule, reports: seq<Report>, last: Report, run: nat)
    requires rule.consecutiveBreaches == 0
    requires IsTrailingRun(rule, Values(rule, reports + [last]), run)
    ensures var latest := LatestFiring(rule, reports);
            FiresAt(rule, reports + [last], |reports|) <==>
            (&& Reading(rule, last.metrics).Some?
             && run > 0
             && 5.0 * run as real >= rule.durationSeconds
             && (latest.Some? && latest.value != 0 ==> (last.at - latest.value) as real >= CooldownMillis(rule)))
  {
    var all := reports + [last];
    assert all[..|reports|] == reports;
    CounterIsTrailingRun(rule, all);
    PolicyStays(rule, reports);
    TrailingRunIsUnique(rule, Values(rule, all), run, After(rule, all).consecutiveBreaches);
    LastTriggeredIsLatestFiring(rule, reports);
    CeilingOfFifth(rule, run);
  }

  // ----- The same in the fields of rules and reports -----

  /** The last n values are all past the threshold. */
  predicate EndsPast(values: seq<real>, n: nat, operator: Operator, threshold: real) {
    n <= |values| && forall i :: |values| - n <= i < |values| ==> Past(operator, values[i], threshold)
  }

  /**
   * A rule fires on a report that it reads exactly when the latest values, enough of them to cover the duration at one
   * in five seconds, are all past its threshold and its cooldown in minutes is over.
   */
  lemma {:induction false} FiresPastThreshold(rule: Rule, reports: seq<Report>, last: Report)
    requires rule.consecutiveBreaches == 0 && Reading(rule, last.metrics).Some?
    ensures var latest := LatestFiring(rule, reports);
            FiresAt(rule, reports + [last], |reports|) <==>
            (&& (exists n: nat :: n > 0 && 5.0 * n as real >= rule.durationSeconds
                   && EndsPast(Values(rule, reports + [last]), n, rule.operator, rule.threshold))
             && (latest.Some? && latest.value != 0 ==>
                   (last.at - latest.value) as real >= rule.cooldownMinutes * 60_000.0))
  {
    var values := Values(rule, reports + [last]);
    CounterIsTrailingRun(rule, reports + [last]);
    var run := After(rule, reports + [last]).consecutiveBreaches;
    FiresExactly(rule, reports, last, run);
    assert forall value :: Breaches(rule, value) <==> Past(rule.operator, value, rule.threshold);
    assert EndsPast(values, run, rule.operator, rule.threshold);
    forall n: nat | n > run ensures !EndsPast(values, n, rule.operator, rule.threshold) {
      PastNoLonger(rule, values, run, n);
    }
    hide Past, Breaches, Values, After, FiresAt, LatestFiring, EndsPast, IsTrailingRun;
  }

  lemma {:induction false} PastNoLonger(rule: Rule, values: seq<real>, run: nat, n: nat)
    requires IsTrailingRun(rule, values, run) && n > run
    ensures !EndsPast(values, n, rule.operator, rule.threshold)
  {
    if n <= |values| {
      assert !Past(rule.operator, values[|values| - run - 1], rule.threshold);
    }
  }

  /** Which value a rule reads, by the name of its metric; a rule of another server or a disabled one reads none. */
  lemma {:induction false} ReadsByName(rule: Rule, m: Metrics)
    ensures Reading(rule, m).Some? ==> rule.enabled && rule.server == m.server
    ensures rule.enabled && rule.server == m.server ==>
              match rule.metric
              case CpuPercent => Reading(rule, m) == Some(m.cpu)
              case MemoryPercent => Reading(rule, m) == Some(m.memory)
              case DiskPercent => Reading(rule, m).None? <==> m.disks == []
              case NetworkRxBytes => Reading(rule, m) == Some(SumRx(m.networks) as real)
              case NetworkTxBytes => Reading(rule, m) == Some(SumTx(m.networks) as real)
              case ConnectionLost => Reading(rule, m).None?
              case Other(_) => Reading(rule, m).None?
  {
    if m.disks != [] {
      PrimaryIsThere(m.disks, m.disks[0]);
    }
    hide SumRx, SumTx;
  }

  lemma {:induction false} PrimaryIsThere(disks: seq<Disk>, first: Disk)
    ensures PrimaryDisk(disks, Some(first)).Some?
  {
    if disks != [] {
      PrimaryIsThere(disks[1..], first);
    }
  }

  /** The disk read is the first one mounted at the root, and the first of all if there is none. */
  lemma {:induction false} ReadsRootDisk(rule: Rule, m: Metrics, i: nat)
    requires rule.enabled && rule.server == m.server && rule.metric == DiskPercent && i < |m.disks|
    requires forall j :: 0 <= j < i ==> m.disks[j].mountpoint != "/"
    requires m.disks[i].mountpoint == "/" || (i == 0 && forall j :: 0 <= j < |m.disks| ==> m.disks[j].mountpoint != "/")
    ensures Reading(rule, m) == Some(m.disks[i].percent)
  {
    PrimaryExactly(m.disks, Some(m.disks[0]));
    assert m.disks[i].mountpoint == "/" ==> FirstRoot(m.disks, i);
  }

  lemma {:induction false} PrimaryExactly(disks: seq<Disk>, first: Option<Disk>)
    ensures (forall j :: 0 <= j < |disks| ==> disks[j].mountpoint != "/") ==> PrimaryDisk(disks, first) == first
    ensures forall i :: FirstRoot(disks, i) ==> PrimaryDisk(disks, first) == Some(disks[i])
  {
    if disks != [] {
      PrimaryExactly(disks[1..], first);
      if disks[0].mountpoint != "/" {
        forall i | FirstRoot(disks, i) ensures PrimaryDisk(disks, first) == Some(disks[i]) {
          assert disks[1..][i - 1] == disks[i];
          assert forall j :: 0 <= j < i - 1 ==> disks[1..][j] == disks[j + 1];
          assert FirstRoot(disks[1..], i - 1);
        }
      }
    }
  }

  predicate FirstRoot(disks: seq<Disk>, i: int) {
    0 <= i < |disks| && disks[i].mountpoint == "/" && forall j :: 0 <= j < i ==> disks[j].mountpoint != "/"
  }

  /** Received and sent bytes are added up over the interfaces. */
  lemma {:induction false} SumsAddUp(one: seq<Network>, other: seq<Network>, network: Network)
    ensures SumRx([network]) == network.rxBytes && SumTx([network]) == network.txBytes
    ensures SumRx(one + other) == SumRx(one) + SumRx(other) && SumTx(one + other) == SumTx(one) + SumTx(other)
    decreases |one|
  {
    if one == [] {
      assert one + other == other;
    } else {
      SumsAddUp(one[1..], other, network);
      assert (one + other)[1..] == one[1..] + other;
    }
  }

  /** Two successive alerts of a rule are at least a cooldown apart, whatever the clock does. */
  lemma {:induction false} SuccessiveFiringsAreSpaced(rule: Rule, reports: seq<Report>, i: nat)
    requires i + 1 < |Firings(rule, reports)|
    requires Firings(rule, reports)[i] != 0
    ensures (Firings(rule, reports)[i + 1] - Firings(rule, reports)[i]) as real >= CooldownMillis(rule)
  {
    var n := |reports| - 1;
    var before := Firings(rule, reports[..n]);
    if i + 1 < |before| {
      SuccessiveFiringsAreSpaced(rule, reports[..n], i);
    } else {
      LastTriggeredIsLatestFiring(rule, reports[..n]);
      PolicyStays(rule, reports[..n]);
    }
  }
}
