/** What a saved row says, in the fields of the samples: its key, its minute and its two network rates. */
module MetricRates {
  import opened Telemetry
  import opened MetricStore

  /** The time of a sample; one that is missing or negative counts as the zero time. */
  function Moment(sample: Sample): int {
    if sample.sampledAtNanos <= 0 then -62_135_596_800_000_000_000 else sample.sampledAtNanos
  }

  /** A reading of the counters at a time, the zero time standing for none. */
  datatype Reading = Reading(at: int, receive: nat, transmit: nat)

  function ReadingOf(snapshot: NetworkSnapshot): Reading {
    Reading(snapshot.sampledAt, snapshot.receive, snapshot.transmit)
  }

  function ReadingOfSample(sample: Sample): Reading {
    Reading(Moment(sample), sample.receiveTotal, sample.transmitTotal)
  }

  /**
   * The row's rates are the bytes received and transmitted since the earlier reading, by the second. Both are zero if
   * there is no earlier reading, if it is not strictly earlier, or if a counter fell.
   */
  predicate RatesSince(before: Reading, row: Row) {
    var now := Moment(row.sample);
    var received, transmitted := row.sample.receiveTotal - before.receive, row.sample.transmitTotal - before.transmit;
    if before.at != -62_135_596_800_000_000_000 && before.at < now && received >= 0 && transmitted >= 0 then
      && row.receiveRate * (now - before.at) as real == received as real * 1_000_000_000.0
      && row.transmitRate * (now - before.at) as real == transmitted as real * 1_000_000_000.0
    else
      row.receiveRate == 0.0 && row.transmitRate == 0.0
  }

  /** Sample i is stored under its own number, cut to the signed range, with the rates since the sample before it. */
  predicate HoldsSample(k: Key, row: Row, server: string, bootId: string, samples: seq<Sample>, i: int, first: Reading)
  {
    && 0 <= i < |samples| && row.sample == samples[i]
    && k.server == server && k.bootId == bootId
    && k.sequence == (if samples[i].sequence <= 0x7fff_ffff_ffff_ffff then samples[i].sequence
                      else 0x7fff_ffff_ffff_ffff)
    && RatesSince(if i == 0 then first else ReadingOfSample(samples[i - 1]), row)
  }

  lemma {:induction false} PerSecond(difference: real, nanos: real)
    requires nanos > 0.0
    ensures (difference / (nanos / 1_000_000_000.0)) * nanos == difference * 1_000_000_000.0
  {
    var seconds := nanos / 1_000_000_000.0;
    assert nanos == seconds * 1_000_000_000.0;
    var rate := difference / seconds;
    assert rate * seconds == difference;
    assert rate * (seconds * 1_000_000_000.0) == (rate * seconds) * 1_000_000_000.0;
  }

  lemma {:induction false} RatesAreSince(sample: Sample, previous: NetworkSnapshot)
    ensures var rates := NetworkRates(SnapshotOf(sample), previous);
            RatesSince(ReadingOf(previous), Row(sample, rates.0, rates.1))
  {
    var nanos := Moment(sample) - previous.sampledAt;
    if nanos > 0 {
      PerSecond((sample.receiveTotal - previous.receive) as real, nanos as real);
      PerSecond((sample.transmitTotal - previous.transmit) as real, nanos as real);
    }
  }

  /** Every row that saving adds holds one of the samples, under its number and with its rates. */
  lemma {:induction false} AddedRowsHoldSamples(st: Store, server: string, bootId: string, samples: seq<Sample>,
                                                previous: NetworkSnapshot)
    ensures var st' := SaveSamples(st, server, bootId, samples, previous);
            forall k :: k in st'.samples && k !in st.samples ==>
              exists i :: HoldsSample(k, st'.samples[k], server, bootId, samples, i, ReadingOf(previous))
    decreases |samples|
  {
    if samples != [] {
      var st1 := SaveSample(st, server, bootId, samples[0], previous);
      var next := SnapshotOf(samples[0]);
      var st2 := SaveSamples(st1, server, bootId, samples[1..], next);
      AddedRowsHoldSamples(st1, server, bootId, samples[1..], next);
      SaveSamplesRows(st1, server, bootId, samples[1..], next);
      RatesAreSince(samples[0], previous);
      assert ReadingOf(next) == ReadingOfSample(samples[0]);
      hide RatesSince, NetworkRates, NextRollup, FirstRollup;
      forall k | k in st2.samples && k !in st.samples
        ensures exists i :: HoldsSample(k, st2.samples[k], server, bootId, samples, i, ReadingOf(previous))
      {
        if k in st1.samples {
          assert HoldsSample(k, st2.samples[k], server, bootId, samples, 0, ReadingOf(previous));
        } else {
          var i :| HoldsSample(k, st2.samples[k], server, bootId, samples[1..], i, ReadingOf(next));
          assert HoldsSample(k, st2.samples[k], server, bootId, samples, i + 1, ReadingOf(previous));
        }
      }
    }
  }

  /** A sample falls into the whole minute that it lies in. */
  lemma {:induction false} BucketIsItsMinute(sample: Sample)
    ensures BucketOf(sample) % 60_000_000_000 == 0
    ensures BucketOf(sample) <= Moment(sample) < BucketOf(sample) + 60_000_000_000
  {
  }
}
