/**
 * How sampling and batching intervals are agreed: the gateway derives an offer from the plan and its configuration,
 * and the agent takes over what it accepts. Durations are in nanoseconds.
 */
module Intervals {
  import opened Wrappers

  const MILLISECOND: int := 1_000_000
  const SECOND: int := 1_000_000_000
  const MINUTE: int := 60 * SECOND
  const SHORTEST: int := 250 * MILLISECOND
  const MAX_UINT32: int := 0xFFFF_FFFF

  type Int32 = x: int | -0x8000_0000 <= x < 0x8000_0000
  type UInt32 = x: int | 0 <= x <= MAX_UINT32

  // ----- The gateway -----

  datatype GatewayConfig = GatewayConfig(sample: int, batch: int, heartbeat: int)

  /** What the gateway's configuration loader accepts. */
  predicate IsGatewayConfig(c: GatewayConfig) {
    && SHORTEST <= c.sample <= MINUTE
    && SHORTEST <= c.batch <= MINUTE
    && 5 * SECOND <= c.heartbeat <= 5 * MINUTE
  }

  /** Integer division that drops the fraction. */
  function Truncate(value: int, unit: int): int
    requires unit > 0
  {
    if value < 0 then -(-value / unit) else value / unit
  }

  function DurationMillis(value: int): UInt32 {
    var milliseconds := Truncate(value, MILLISECOND);
    if milliseconds <= 0 then 1
    else if milliseconds > MAX_UINT32 then MAX_UINT32
    else milliseconds
  }

  /** Whole seconds of a duration that fits thirty-two bits. */
  function DurationSeconds(value: int): UInt32
    requires value < (MAX_UINT32 + 1) * SECOND
  {
    if value <= 0 then 1 else value / SECOND
  }

  /** The sampling interval of an agent: what its plan says, or else a fallback, but never below 250 milliseconds. */
  function PlanSample(plan: Option<Int32>, fallback: int): int {
    var asked := if plan.Some? then plan.value * MILLISECOND else fallback;
    if asked < SHORTEST then SHORTEST else asked
  }

  function Longer(a: int, b: int): int {
    if a < b then b else a
  }

  /** The configuration message. */
  datatype Offer = Offer(sampleMillis: UInt32, batchMillis: UInt32, heartbeatSeconds: UInt32)

  function OfferFor(c: GatewayConfig, sample: int): Offer
    requires IsGatewayConfig(c)
  {
    Offer(DurationMillis(sample), DurationMillis(Longer(c.batch, sample)), DurationSeconds(c.heartbeat))
  }

  /** A stream is welcomed with one second as the fallback; a pairing uses the configured interval. */
  datatype Occasion = Welcome | Pairing

  function OfferOn(c: GatewayConfig, occasion: Occasion, plan: Option<Int32>): Offer
    requires IsGatewayConfig(c)
  {
    OfferFor(c, PlanSample(plan, if occasion.Welcome? then SECOND else c.sample))
  }

  // ----- The agent -----

  datatype Settings = Settings(sample: int, batch: int, heartbeat: int)

  predicate InRange(value: int, low: int, high: int) {
    low <= value <= high
  }

  function Updated(s: Settings, offer: Offer): Settings {
    var sample :=
      if InRange(offer.sampleMillis * MILLISECOND, SHORTEST, MINUTE)
      then offer.sampleMillis * MILLISECOND
      else s.sample;
    var batch :=
      if InRange(offer.batchMillis * MILLISECOND, sample, MINUTE)
      then offer.batchMillis * MILLISECOND
      else s.batch;
    var heartbeat :=
      if InRange(offer.heartbeatSeconds * SECOND, 5 * SECOND, 5 * MINUTE)
      then offer.heartbeatSeconds * SECOND
      else s.heartbeat;
    Settings(sample, batch, heartbeat)
  }

  /** What the agent's configuration loader demands of its own intervals. */
  predicate Acceptable(s: Settings) {
    SHORTEST <= s.sample <= s.batch <= MINUTE
  }

  class RuntimeSettings {
    var sampleInterval: int
    var batchInterval: int
    var heartbeatInterval: int

    function State(): Settings
      reads this
    {
      Settings(sampleInterval, batchInterval, heartbeatInterval)
    }

    constructor (sample: int, batch: int)
      ensures State() == Settings(sample, batch, 15 * SECOND)
    {
      sampleInterval, batchInterval, heartbeatInterval := sample, batch, 15 * SECOND;
    }

    method Update(configuration: Option<Offer>)
      modifies this
      ensures State() == if configuration.Some? then Updated(old(State()), configuration.value) else old(State())
      // Each interval is the old one or the one offered, and the one offered if it is in its range.
      ensures configuration.None? ==> State() == old(State())
      ensures configuration.Some? ==>
                var sample, batch, beat := configuration.value.sampleMillis * 1_000_000,
                      configuration.value.batchMillis * 1_000_000, configuration.value.heartbeatSeconds * 1_000_000_000;
                && sampleInterval == (if 250_000_000 <= sample <= 60_000_000_000 then sample else old(sampleInterval))
                && batchInterval == (if sampleInterval <= batch <= 60_000_000_000 then batch else old(batchInterval))
                && heartbeatInterval == (if 5_000_000_000 <= beat <= 300_000_000_000 then beat
                                         else old(heartbeatInterval))
    {
      if configuration.None? {
        return;
      }
      var value := configuration.value.sampleMillis * MILLISECOND;
      if value >= SHORTEST && value <= MINUTE {
        sampleInterval := value;
      }
      value := configuration.value.batchMillis * MILLISECOND;
      if value >= sampleInterval && value <= MINUTE {
        batchInterval := value;
      }
      value := configuration.value.heartbeatSeconds * SECOND;
      if value >= 5 * SECOND && value <= 5 * MINUTE {
        heartbeatInterval := value;
      }
    }
  }

  // ----- One offer -----

  /**
   * An offer of a gateway is taken over as a whole or not at all: both intervals, cut to whole milliseconds, if the
   * sampling interval cut so is at most a minute, and neither of them otherwise.
   */
  lemma {:induction false} OfferTakenWhole(s: Settings, c: GatewayConfig, occasion: Occasion, plan: Option<Int32>)
    requires IsGatewayConfig(c)
    ensures var sample := PlanSample(plan, if occasion.Welcome? then SECOND else c.sample);
            var cut := Truncate(sample, MILLISECOND) * MILLISECOND;
            var after := Updated(s, OfferOn(c, occasion, plan));
            if cut <= MINUTE
            then after.sample == cut && after.batch == Truncate(Longer(c.batch, sample), MILLISECOND) * MILLISECOND
            else after.sample == s.sample && after.batch == s.batch
  {
  }

  /** The sampling interval that a gateway means: the plan's or the occasion's, but at least 250 milliseconds. */
  function Meant(c: GatewayConfig, occasion: Occasion, plan: Option<Int32>): int {
    match plan
    case Some(millis) => if millis > 250 then millis * 1_000_000 else 250_000_000
    case None => if occasion == Pairing then c.sample else 1_000_000_000
  }

  /**
   * In nanoseconds: up to a minute, the agent samples at the interval that is meant and batches at the longer of it and
   * the configured one, both cut to whole milliseconds; with a longer one it keeps what it has.
   */
  lemma {:induction false} OfferInNanoseconds(s: Settings, c: GatewayConfig, occasion: Occasion, plan: Option<Int32>)
    requires 250_000_000 <= c.sample <= 60_000_000_000 && 250_000_000 <= c.batch <= 60_000_000_000
    requires 5_000_000_000 <= c.heartbeat <= 300_000_000_000
    ensures IsGatewayConfig(c)
    ensures var sample := Meant(c, occasion, plan);
            var batch := if c.batch > sample then c.batch else sample;
            var after := Updated(s, OfferOn(c, occasion, plan));
            if sample < 60_001_000_000 then
              && after.sample % 1_000_000 == 0 && after.sample <= sample < after.sample + 1_000_000
              && after.batch % 1_000_000 == 0 && after.batch <= batch < after.batch + 1_000_000
            else after.sample == s.sample && after.batch == s.batch
    ensures var after := Updated(s, OfferOn(c, occasion, plan));
            after.heartbeat % 1_000_000_000 == 0 && after.heartbeat <= c.heartbeat < after.heartbeat + 1_000_000_000
  {
    OfferTakenWhole(s, c, occasion, plan);
  }

  /** Division drops the fraction on either side of zero. */
  lemma {:induction false} TruncatesTowardZero(value: int, unit: int)
    requires unit > 0
    ensures var cut := Truncate(value, unit) * unit;
            if value >= 0 then cut <= value < cut + unit else cut - unit < value <= cut
  {
  }

  /** A duration is sent in whole milliseconds, at least one and at most what thirty-two bits hold. */
  lemma {:induction false} MillisecondsSent(value: int)
    ensures var sent := DurationMillis(value);
            if value < 1_000_000 then sent == 1
            else if value >= 4_294_967_296_000_000 then sent == 4_294_967_295
            else sent * 1_000_000 <= value < sent * 1_000_000 + 1_000_000
  {
  }

  lemma {:induction false} SecondsSent(value: int)
    requires value < 4_294_967_296_000_000_000
    ensures var sent := DurationSeconds(value);
            if value <= 0 then sent == 1 else sent * 1_000_000_000 <= value < sent * 1_000_000_000 + 1_000_000_000
  {
  }

  /**
   * Whatever the plan says and however the gateway is configured, an update keeps 250 ms <= sample <= batch <= 1 min.
   */
  lemma {:induction false} OfferKeepsAcceptable(s: Settings, c: GatewayConfig, occasion: Occasion, plan: Option<Int32>)
    requires IsGatewayConfig(c) && Acceptable(s)
    ensures Acceptable(Updated(s, OfferOn(c, occasion, plan)))
  {
    OfferTakenWhole(s, c, occasion, plan);
  }

  /** The heartbeat offered is always taken over, cut to whole seconds. */
  lemma {:induction false} HeartbeatTaken(s: Settings, c: GatewayConfig, occasion: Occasion, plan: Option<Int32>)
    requires IsGatewayConfig(c)
    ensures var after := Updated(s, OfferOn(c, occasion, plan)).heartbeat;
            5 * SECOND <= after <= c.heartbeat && c.heartbeat - after < SECOND
  {
  }

  // ----- Runs of offers -----

  /** A gateway may be reconfigured and a plan changed between two offers. */
  datatype Event = Event(config: GatewayConfig, occasion: Occasion, plan: Option<Int32>)

  predicate FromGateways(events: seq<Event>) {
    forall i :: 0 <= i < |events| ==> IsGatewayConfig(events[i].config)
  }

  function After(s: Settings, events: seq<Event>): Settings
    requires FromGateways(events)
  {
    if events == [] then s
    else
      var last := events[|events| - 1];
      Updated(After(s, events[..|events| - 1]), OfferOn(last.config, last.occasion, last.plan))
  }

  lemma {:induction false} AlwaysAcceptable(s: Settings, events: seq<Event>)
    requires Acceptable(s) && FromGateways(events)
    ensures Acceptable(After(s, events))
  {
    if events != [] {
      var n := |events| - 1;
      AlwaysAcceptable(s, events[..n]);
      OfferKeepsAcceptable(After(s, events[..n]), events[n].config, events[n].occasion, events[n].plan);
    }
  }

  // ----- Offers that no gateway makes -----

  /**
   * The agent's own checks do not protect it from every message: an update breaks the order of the intervals exactly
   * when it takes over a sampling interval longer than its batching interval and not the batching interval offered.
   */
  lemma {:induction false} UpdateKeepsAcceptableExactly(s: Settings, offer: Offer)
    requires Acceptable(s)
    ensures var taken := InRange(offer.sampleMillis * MILLISECOND, SHORTEST, MINUTE);
            !Acceptable(Updated(s, offer)) <==>
            (&& taken && offer.sampleMillis * MILLISECOND > s.batch
             && !InRange(offer.batchMillis * MILLISECOND, offer.sampleMillis * MILLISECOND, MINUTE))
  {
  }

  lemma {:induction false} SlowSampleBreaksOrder()
    ensures var s := Settings(SECOND, SECOND, 15 * SECOND);
            Acceptable(s) && !Acceptable(Updated(s, Offer(2000, 1000, 15)))
  {
  }
}
