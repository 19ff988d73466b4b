/** The gateway's metric tables: samples deduplicated by (server, boot, sequence), and one-minute rollups.
    Averages and rates are exact reals. */
module MetricStore {
  import opened Telemetry

  const MAX_INT64: nat := 0x7fff_ffff_ffff_ffff
  const NANOS_PER_SECOND: nat := 1_000_000_000
  const NANOS_PER_MINUTE: nat := 60_000_000_000

  /** The zero time (year 1), in nanoseconds relative to the Unix epoch; it falls on a whole minute. */
  const ZERO_TIME: int := -62_135_596_800_000_000_000

  /** How an unsigned counter or sequence is stored in a signed 64-bit column. */
  function Clamp(value: nat): nat {
    if value > MAX_INT64 then MAX_INT64 else value
  }

  function TimeOf(nanos: int): int {
    if nanos <= 0 then ZERO_TIME else nanos
  }

  function Minute(time: int): int {
    time - time % NANOS_PER_MINUTE
  }

  datatype Key = Key(server: string, bootId: string, sequence: nat)

  datatype Row = Row(sample: Sample, receiveRate: real, transmitRate: real)

  datatype BucketKey = BucketKey(server: string, bucketAt: int)

  datatype Rollup = Rollup(
    count: nat,
    cpuAverage: real, cpuMinimum: real, cpuMaximum: real,
    memoryAverage: real, memoryMinimum: real, memoryMaximum: real,
    diskAverage: real, receiveRateAverage: real, transmitRateAverage: real,
    switchesTotal: nat, retransmitsTotal: nat)

  datatype Store = Store(samples: map<Key, Row>, rollups: map<BucketKey, Rollup>)

  datatype NetworkSnapshot = NetworkSnapshot(sampledAt: int, receive: nat, transmit: nat)

  function KeyOf(server: string, bootId: string, sample: Sample): Key {
    Key(server, bootId, Clamp(sample.sequence))
  }

  function BucketOf(sample: Sample): int {
    Minute(TimeOf(sample.sampledAtNanos))
  }

  function SnapshotOf(sample: Sample): NetworkSnapshot {
    NetworkSnapshot(TimeOf(sample.sampledAtNanos), sample.receiveTotal, sample.transmitTotal)
  }

  /** Bytes per second since the previous snapshot, or nothing if a counter or the clock went backwards. */
  function NetworkRates(current: NetworkSnapshot, previous: NetworkSnapshot): (real, real) {
    if previous.sampledAt == ZERO_TIME || current.sampledAt <= previous.sampledAt
       || current.receive < previous.receive || current.transmit < previous.transmit
    then (0.0, 0.0)
    else
      var seconds := (current.sampledAt - previous.sampledAt) as real / NANOS_PER_SECOND as real;
      ((current.receive - previous.receive) as real / seconds,
       (current.transmit - previous.transmit) as real / seconds)
  }

  function Least(a: real, b: real): real {
    if b < a then b else a
  }

  function Greatest(a: real, b: real): real {
    if a < b then b else a
  }

  function FirstRollup(row: Row): Rollup {
    var s := row.sample;
    Rollup(1, s.cpuPercent, s.cpuPercent, s.cpuPercent,
           s.memoryPercent, s.memoryPercent, s.memoryPercent,
           s.diskPercent, row.receiveRate, row.transmitRate,
           Clamp(s.schedulerSwitches), Clamp(s.tcpRetransmits))
  }

  function Fold(average: real, count: nat, value: real): real {
    (average * count as real + value) / (count + 1) as real
  }

  function NextRollup(r: Rollup, row: Row): Rollup {
    var s := row.sample;
    Rollup(
      r.count + 1,
      Fold(r.cpuAverage, r.count, s.cpuPercent),
      Least(r.cpuMinimum, s.cpuPercent), Greatest(r.cpuMaximum, s.cpuPercent),
      Fold(r.memoryAverage, r.count, s.memoryPercent),
      Least(r.memoryMinimum, s.memoryPercent), Greatest(r.memoryMaximum, s.memoryPercent),
      Fold(r.diskAverage, r.count, s.diskPercent),
      Fold(r.receiveRateAverage, r.count, row.receiveRate),
      Fold(r.transmitRateAverage, r.count, row.transmitRate),
      r.switchesTotal + Clamp(s.schedulerSwitches),
      r.retransmitsTotal + Clamp(s.tcpRetransmits))
  }

  /** Insert one sample unless its key is taken; only a new row reaches the rollup. */
  function SaveSample(st: Store, server: string, bootId: string, sample: Sample, previous: NetworkSnapshot): Store {
    var key := KeyOf(server, bootId, sample);
    if key in st.samples then st
    else
      var rates := NetworkRates(SnapshotOf(sample), previous);
      var row := Row(sample, rates.0, rates.1);
      var bucket := BucketKey(server, BucketOf(sample));
      var rollup := if bucket in st.rollups then NextRollup(st.rollups[bucket], row) else FirstRollup(row);
      Store(st.samples[key := row], st.rollups[bucket := rollup])
  }

  function SaveSamples(st: Store, server: string, bootId: string, samples: seq<Sample>,
                       previous: NetworkSnapshot): Store
    decreases |samples|
  {
    if samples == [] then st
    else
      SaveSamples(SaveSample(st, server, bootId, samples[0], previous),
                  server, bootId, samples[1..], SnapshotOf(samples[0]))
  }

  /** What one committed batch does to the tables. */
  function SaveBatch(st: Store, server: string, batch: MetricBatch, previous: NetworkSnapshot): Store {
    SaveSamples(st, server, batch.bootId, SortBySequence(batch.samples), previous)
  }

  // ----- What the tables mean -----

  datatype Field = Cpu | Memory | Disk | ReceiveRate | TransmitRate | Switches | Retransmits

  /** Fields that do not depend on the sample stored before this one. */
  predicate OrderFree(f: Field) {
    !f.ReceiveRate? && !f.TransmitRate?
  }

  function FieldOf(row: Row, f: Field): real {
    match f
    case Cpu => row.sample.cpuPercent
    case Memory => row.sample.memoryPercent
    case Disk => row.sample.diskPercent
    case ReceiveRate => row.receiveRate
    case TransmitRate => row.transmitRate
    case Switches => Clamp(row.sample.schedulerSwitches) as real
    case Retransmits => Clamp(row.sample.tcpRetransmits) as real
  }

  /** The sum a rollup stands for: its average times its count, or its running total. */
  function Accumulated(r: Rollup, f: Field): real {
    match f
    case Cpu => r.cpuAverage * r.count as real
    case Memory => r.memoryAverage * r.count as real
    case Disk => r.diskAverage * r.count as real
    case ReceiveRate => r.receiveRateAverage * r.count as real
    case TransmitRate => r.transmitRateAverage * r.count as real
    case Switches => r.switchesTotal as real
    case Retransmits => r.retransmitsTotal as real
  }

  ghost function Sum(keys: set<Key>, samples: map<Key, Row>, f: Field): real
    requires keys <= samples.Keys
  {
    if keys == {} then 0.0
    else
      var k :| k in keys;
      FieldOf(samples[k], f) + Sum(keys - {k}, samples, f)
  }

  ghost function BucketKeys(samples: map<Key, Row>, bucket: BucketKey): set<Key> {
    set k | k in samples && k.server == bucket.server && BucketOf(samples[k].sample) == bucket.bucketAt
  }

  ghost predicate Bounds(keys: set<Key>, samples: map<Key, Row>, f: Field, low: real, high: real)
    requires keys <= samples.Keys
  {
    && (forall k :: k in keys ==> low <= FieldOf(samples[k], f) <= high)
    && (exists k :: k in keys && FieldOf(samples[k], f) == low)
    && (exists k :: k in keys && FieldOf(samples[k], f) == high)
  }

  /** The rollup is the fold of exactly these stored rows. */
  ghost predicate Summarizes(r: Rollup, keys: set<Key>, samples: map<Key, Row>)
    requires keys <= samples.Keys
  {
    && r.count == |keys| > 0
    && (forall f: Field :: Accumulated(r, f) == Sum(keys, samples, f))
    && Bounds(keys, samples, Cpu, r.cpuMinimum, r.cpuMaximum)
    && Bounds(keys, samples, Memory, r.memoryMinimum, r.memoryMaximum)
  }

  ghost predicate BucketFaithful(st: Store, bucket: BucketKey) {
    var keys := BucketKeys(st.samples, bucket);
    if bucket in st.rollups then Summarizes(st.rollups[bucket], keys, st.samples) else keys == {}
  }

  /** Every rollup bucket is the fold of exactly its stored samples, each filed under its own key. */
  ghost predicate Valid(st: Store) {
    && (forall k :: k in st.samples ==> k.sequence == Clamp(st.samples[k].sample.sequence))
    && (forall bucket :: BucketFaithful(st, bucket))
  }

  const EMPTY: Store := Store(map[], map[])

  lemma {:induction false} EmptyIsValid()
    ensures Valid(EMPTY)
  {
  }

  // ----- Sums over key sets -----

  /** The sum does not depend on the order in which the keys are taken. */
  lemma {:induction false} SumRemove(keys: set<Key>, samples: map<Key, Row>, f: Field, k: Key)
    requires k in keys && keys <= samples.Keys
    ensures Sum(keys, samples, f) == FieldOf(samples[k], f) + Sum(keys - {k}, samples, f)
    decreases |keys|
  {
    var pick :| pick in keys
      && Sum(keys, samples, f) == FieldOf(samples[pick], f) + Sum(keys - {pick}, samples, f);
    if pick != k {
      SumRemove(keys - {pick}, samples, f, k);
      SumRemove(keys - {k}, samples, f, pick);
      assert keys - {pick} - {k} == keys - {k} - {pick};
    }
  }

  lemma {:induction false} SumAgrees(keys: set<Key>, samples: map<Key, Row>, samples': map<Key, Row>, f: Field)
    requires keys <= samples.Keys && keys <= samples'.Keys
    requires forall k :: k in keys ==> FieldOf(samples[k], f) == FieldOf(samples'[k], f)
    ensures Sum(keys, samples, f) == Sum(keys, samples', f)
    decreases |keys|
  {
    if keys != {} {
      var k :| k in keys;
      SumRemove(keys, samples, f, k);
      SumRemove(keys, samples', f, k);
      SumAgrees(keys - {k}, samples, samples', f);
    }
  }

  function Scale(x: real, n: nat): real {
    x * n as real
  }

  lemma {:induction false} SumBounded(keys: set<Key>, samples: map<Key, Row>, f: Field, low: real, high: real)
    requires keys <= samples.Keys
    requires forall k :: k in keys ==> low <= FieldOf(samples[k], f) <= high
    ensures Scale(low, |keys|) <= Sum(keys, samples, f) <= Scale(high, |keys|)
    decreases |keys|
  {
    ScaleStep(low, 0);
    ScaleStep(high, 0);
    hide Scale, FieldOf;
    if keys != {} {
      var k :| k in keys;
      SumRemove(keys, samples, f, k);
      SumBounded(keys - {k}, samples, f, low, high);
      assert |keys| == |keys - {k}| + 1;
      ScaleStep(low, |keys - {k}|);
      ScaleStep(high, |keys - {k}|);
    }
  }

  lemma {:induction false} ScaleStep(x: real, n: nat)
    ensures Scale(x, 0) == 0.0
    ensures Scale(x, n + 1) == Scale(x, n) + x
  {
    assert x * (n + 1) as real == x * n as real + x;
  }

  lemma {:induction false} DivideThenMultiply(x: real, d: real)
    requires d > 0.0
    ensures x / d * d == x
  {
  }

  lemma {:induction false} FoldAccumulates(average: real, count: nat, value: real)
    ensures Fold(average, count, value) * (count + 1) as real == average * count as real + value
  {
    DivideThenMultiply(average * count as real + value, (count + 1) as real);
  }

  lemma {:induction false} CancelFactor(a: real, b: real, n: real)
    requires n > 0.0 && a * n == b * n
    ensures a == b
  {
  }

  lemma {:induction false} CancelBound(a: real, b: real, n: real)
    requires n > 0.0 && a * n <= b * n
    ensures a <= b
  {
  }

  // ----- Saving keeps the tables faithful -----

  lemma {:induction false} InsertedBucketKeys(samples: map<Key, Row>, key: Key, row: Row, bucket: BucketKey)
    requires key !in samples
    ensures BucketKeys(samples[key := row], bucket) ==
            if key.server == bucket.server && BucketOf(row.sample) == bucket.bucketAt
            then BucketKeys(samples, bucket) + {key} else BucketKeys(samples, bucket)
  {
  }

  lemma {:induction false} SumInsert(keys: set<Key>, samples: map<Key, Row>, key: Key, row: Row, f: Field)
    requires keys <= samples.Keys && key !in samples
    ensures Sum(keys + {key}, samples[key := row], f) == Sum(keys, samples, f) + FieldOf(row, f)
  {
    SumRemove(keys + {key}, samples[key := row], f, key);
    assert keys + {key} - {key} == keys;
    SumAgrees(keys, samples, samples[key := row], f);
  }

  lemma {:induction false} BoundsInsert(keys: set<Key>, samples: map<Key, Row>, key: Key, row: Row, f: Field,
                                        low: real, high: real)
    requires keys <= samples.Keys && key !in samples
    requires Bounds(keys, samples, f, low, high)
    ensures Bounds(keys + {key}, samples[key := row], f, Least(low, FieldOf(row, f)), Greatest(high, FieldOf(row, f)))
  {
    var samples' := samples[key := row];
    var at, at' :| at in keys && FieldOf(samples[at], f) == low && at' in keys && FieldOf(samples[at'], f) == high;
    assert FieldOf(samples'[at], f) == low && FieldOf(samples'[at'], f) == high;
    assert FieldOf(samples'[key], f) == FieldOf(row, f);
  }

  lemma {:induction false} NextAccumulates(r: Rollup, row: Row, f: Field)
    ensures Accumulated(NextRollup(r, row), f) == Accumulated(r, f) + FieldOf(row, f)
  {
    hide Fold, Least, Greatest;
    match f
    case Cpu => FoldAccumulates(r.cpuAverage, r.count, row.sample.cpuPercent);
    case Memory => FoldAccumulates(r.memoryAverage, r.count, row.sample.memoryPercent);
    case Disk => FoldAccumulates(r.diskAverage, r.count, row.sample.diskPercent);
    case ReceiveRate => FoldAccumulates(r.receiveRateAverage, r.count, row.receiveRate);
    case TransmitRate => FoldAccumulates(r.transmitRateAverage, r.count, row.transmitRate);
    case Switches =>
    case Retransmits =>
  }

  lemma {:induction false} NextRollupSummarizes(r: Rollup, keys: set<Key>, samples: map<Key, Row>, key: Key, row: Row)
    requires keys <= samples.Keys && key !in samples
    requires Summarizes(r, keys, samples)
    ensures Summarizes(NextRollup(r, row), keys + {key}, samples[key := row])
  {
    forall f: Field
      ensures Accumulated(NextRollup(r, row), f) == Sum(keys + {key}, samples[key := row], f)
    {
      SumInsert(keys, samples, key, row, f);
      NextAccumulates(r, row, f);
    }
    BoundsInsert(keys, samples, key, row, Cpu, r.cpuMinimum, r.cpuMaximum);
    BoundsInsert(keys, samples, key, row, Memory, r.memoryMinimum, r.memoryMaximum);
  }

  lemma {:induction false} FirstRollupSummarizes(samples: map<Key, Row>, key: Key, row: Row)
    requires key !in samples
    ensures Summarizes(FirstRollup(row), {key}, samples[key := row])
  {
    forall f: Field
      ensures Accumulated(FirstRollup(row), f) == Sum({key}, samples[key := row], f)
    {
      SumInsert({}, samples, key, row, f);
      assert {} + {key} == {key};
    }
    assert FieldOf(samples[key := row][key], Cpu) == row.sample.cpuPercent;
    assert FieldOf(samples[key := row][key], Memory) == row.sample.memoryPercent;
  }

  lemma {:induction false} UntouchedSummary(r: Rollup, keys: set<Key>, samples: map<Key, Row>, samples': map<Key, Row>)
    requires keys <= samples.Keys && keys <= samples'.Keys
    requires forall k :: k in keys ==> samples[k] == samples'[k]
    requires Summarizes(r, keys, samples)
    ensures Summarizes(r, keys, samples')
  {
    forall f: Field
      ensures Accumulated(r, f) == Sum(keys, samples', f)
    {
      SumAgrees(keys, samples, samples', f);
    }
    BoundsAgree(keys, samples, samples', Cpu, r.cpuMinimum, r.cpuMaximum);
    BoundsAgree(keys, samples, samples', Memory, r.memoryMinimum, r.memoryMaximum);
  }

  lemma {:induction false} BoundsAgree(keys: set<Key>, samples: map<Key, Row>, samples': map<Key, Row>, f: Field,
                                       low: real, high: real)
    requires keys <= samples.Keys && keys <= samples'.Keys
    requires forall k :: k in keys ==> FieldOf(samples[k], f) == FieldOf(samples'[k], f)
    requires Bounds(keys, samples, f, low, high)
    ensures Bounds(keys, samples', f, low, high)
  {
    var at, at' :| at in keys && FieldOf(samples[at], f) == low && at' in keys && FieldOf(samples[at'], f) == high;
    assert FieldOf(samples'[at], f) == low && FieldOf(samples'[at'], f) == high;
  }

  lemma {:induction false} SaveSampleKeepsValid(st: Store, server: string, bootId: string, sample: Sample,
                                                previous: NetworkSnapshot)
    requires Valid(st)
    ensures Valid(SaveSample(st, server, bootId, sample, previous))
  {
    var st' := SaveSample(st, server, bootId, sample, previous);
    var key := KeyOf(server, bootId, sample);
    if key !in st.samples {
      var row := st'.samples[key];
      var own := BucketKey(server, BucketOf(sample));
      forall bucket
        ensures BucketFaithful(st', bucket)
      {
        assert BucketFaithful(st, bucket);
        InsertedBucketKeys(st.samples, key, row, bucket);
        var keys := BucketKeys(st.samples, bucket);
        if bucket == own {
          if own in st.rollups {
            NextRollupSummarizes(st.rollups[own], keys, st.samples, key, row);
          } else {
            FirstRollupSummarizes(st.samples, key, row);
            assert keys + {key} == {key};
          }
        } else if bucket in st.rollups {
          UntouchedSummary(st.rollups[bucket], keys, st.samples, st'.samples);
        }
      }
    }
  }

  lemma {:induction false} SaveSamplesKeepsValid(st: Store, server: string, bootId: string, samples: seq<Sample>,
                                                 previous: NetworkSnapshot)
    requires Valid(st)
    ensures Valid(SaveSamples(st, server, bootId, samples, previous))
    decreases |samples|
  {
    if samples != [] {
      SaveSampleKeepsValid(st, server, bootId, samples[0], previous);
      SaveSamplesKeepsValid(SaveSample(st, server, bootId, samples[0], previous),
                            server, bootId, samples[1..], SnapshotOf(samples[0]));
    }
  }

  /** Rollups are never looser than their rows: the average lies between the extremes. */
  lemma {:induction false} AverageBetweenExtremes(st: Store, bucket: BucketKey)
    requires Valid(st) && bucket in st.rollups
    ensures st.rollups[bucket].cpuMinimum <= st.rollups[bucket].cpuAverage <= st.rollups[bucket].cpuMaximum
    ensures st.rollups[bucket].memoryMinimum <= st.rollups[bucket].memoryAverage <= st.rollups[bucket].memoryMaximum
  {
    hide Sum;
    assert BucketFaithful(st, bucket);
    var r, keys := st.rollups[bucket], BucketKeys(st.samples, bucket);
    SumBounded(keys, st.samples, Cpu, r.cpuMinimum, r.cpuMaximum);
    MeanBetween(r.cpuMinimum, r.cpuAverage, r.cpuMaximum, r.count, Accumulated(r, Cpu));
    SumBounded(keys, st.samples, Memory, r.memoryMinimum, r.memoryMaximum);
    MeanBetween(r.memoryMinimum, r.memoryAverage, r.memoryMaximum, r.count, Accumulated(r, Memory));
  }

  lemma {:induction false} MeanBetween(low: real, mean: real, high: real, n: nat, sum: real)
    requires n > 0 && sum == mean * n as real
    requires Scale(low, n) <= sum <= Scale(high, n)
    ensures low <= mean <= high
  {
    CancelBound(low, mean, n as real);
    CancelBound(mean, high, n as real);
  }

  // ----- Which rows a save leaves behind -----

  predicate Stored(st: Store, server: string, bootId: string, sample: Sample) {
    var key := KeyOf(server, bootId, sample);
    key in st.samples && st.samples[key].sample == sample
  }

  /** Existing rows never change; new keys are exactly the batch's, each holding the first sample offered for it. */
  lemma {:induction false} SaveSamplesRows(st: Store, server: string, bootId: string, samples: seq<Sample>,
                                           previous: NetworkSnapshot)
    ensures forall k :: k in st.samples ==>
              k in SaveSamples(st, server, bootId, samples, previous).samples
              && SaveSamples(st, server, bootId, samples, previous).samples[k] == st.samples[k]
    ensures forall k :: k in SaveSamples(st, server, bootId, samples, previous).samples && k !in st.samples ==>
              exists i :: 0 <= i < |samples| && KeyOf(server, bootId, samples[i]) == k
                && SaveSamples(st, server, bootId, samples, previous).samples[k].sample == samples[i]
    ensures forall i :: 0 <= i < |samples| ==>
              KeyOf(server, bootId, samples[i]) in SaveSamples(st, server, bootId, samples, previous).samples
    decreases |samples|
  {
    if samples != [] {
      var st1 := SaveSample(st, server, bootId, samples[0], previous);
      var st2 := SaveSamples(st1, server, bootId, samples[1..], SnapshotOf(samples[0]));
      SaveSamplesRows(st1, server, bootId, samples[1..], SnapshotOf(samples[0]));
      forall k | k in st2.samples && k !in st.samples
        ensures exists i :: 0 <= i < |samples| && KeyOf(server, bootId, samples[i]) == k &&
                  st2.samples[k].sample == samples[i]
      {
        if k in st1.samples {
          assert KeyOf(server, bootId, samples[0]) == k && st2.samples[k].sample == samples[0];
        } else {
          var i :| 0 <= i < |samples[1..]| && KeyOf(server, bootId, samples[1..][i]) == k
            && st2.samples[k].sample == samples[1..][i];
          assert samples[i + 1] == samples[1..][i];
        }
      }
      forall i | 0 <= i < |samples|
        ensures KeyOf(server, bootId, samples[i]) in st2.samples
      {
        if i > 0 {
          assert samples[i] == samples[1..][i - 1];
        }
      }
    }
  }

  lemma {:induction false} AllKeysTaken(st: Store, server: string, bootId: string, samples: seq<Sample>,
                                        previous: NetworkSnapshot)
    requires forall i :: 0 <= i < |samples| ==> KeyOf(server, bootId, samples[i]) in st.samples
    ensures SaveSamples(st, server, bootId, samples, previous) == st
    decreases |samples|
  {
    if samples != [] {
      assert forall i :: 0 <= i < |samples[1..]| ==> samples[1..][i] == samples[i + 1];
      AllKeysTaken(st, server, bootId, samples[1..], SnapshotOf(samples[0]));
    }
  }

  /** The batch carries this sample under this key. */
  predicate Offers(server: string, batch: MetricBatch, k: Key, sample: Sample) {
    sample in batch.samples && KeyOf(server, batch.bootId, sample) == k
  }

  lemma {:induction false} SortedMembers(samples: seq<Sample>)
    ensures forall s :: s in SortBySequence(samples) <==> s in samples
  {
    SortIsSortedPermutation(samples);
    forall s
      ensures s in SortBySequence(samples) <==> s in samples
    {
      assert s in SortBySequence(samples) <==> s in multiset(SortBySequence(samples));
    }
  }

  /** A redelivered batch changes no sample row and no rollup row, however much was saved in between. */
  lemma {:induction false} RedeliveryChangesNothing(st: Store, st': Store, server: string, batch: MetricBatch,
                                 previous: NetworkSnapshot, previous': NetworkSnapshot)
    requires SaveBatch(st, server, batch, previous).samples.Keys <= st'.samples.Keys
    ensures SaveBatch(st', server, batch, previous') == st'
  {
    var samples := SortBySequence(batch.samples);
    SaveSamplesRows(st, server, batch.bootId, samples, previous);
    AllKeysTaken(st', server, batch.bootId, samples, previous');
  }

  /** Saving a batch keeps the tables faithful and all earlier rows; what it adds comes from the batch. */
  lemma {:induction false} SaveBatchEffect(st: Store, server: string, batch: MetricBatch, previous: NetworkSnapshot)
    requires Valid(st)
    ensures Valid(SaveBatch(st, server, batch, previous))
    ensures forall k :: k in st.samples ==>
              k in SaveBatch(st, server, batch, previous).samples
              && SaveBatch(st, server, batch, previous).samples[k] == st.samples[k]
    ensures forall k :: k in SaveBatch(st, server, batch, previous).samples && k !in st.samples ==>
              Offers(server, batch, k, SaveBatch(st, server, batch, previous).samples[k].sample)
    ensures forall k, sample :: Offers(server, batch, k, sample) ==>
              k in SaveBatch(st, server, batch, previous).samples
  {
    var samples := SortBySequence(batch.samples);
    SortedMembers(batch.samples);
    SaveSamplesKeepsValid(st, server, batch.bootId, samples, previous);
    SaveSamplesRows(st, server, batch.bootId, samples, previous);
  }

  // ----- Histories of deliveries -----

  datatype Delivery = Delivery(server: string, batch: MetricBatch, previous: NetworkSnapshot)

  function SaveAll(st: Store, history: seq<Delivery>): Store
    decreases |history|
  {
    if history == [] then st
    else
      var n := |history| - 1;
      SaveBatch(SaveAll(st, history[..n]), history[n].server, history[n].batch, history[n].previous)
  }

  predicate Delivers(history: seq<Delivery>, k: Key, sample: Sample) {
    exists d :: 0 <= d < |history| && Offers(history[d].server, history[d].batch, k, sample)
  }

  /** Every delivery of a key carries the same sample. */
  ghost predicate Consistent(history: seq<Delivery>) {
    forall k, sample, sample' :: Delivers(history, k, sample) && Delivers(history, k, sample') ==> sample == sample'
  }

  lemma {:induction false} DeliversSplits(history: seq<Delivery>, k: Key, sample: Sample)
    requires history != []
    ensures Delivers(history, k, sample) <==>
            Delivers(history[..|history| - 1], k, sample)
            || Offers(history[|history| - 1].server, history[|history| - 1].batch, k, sample)
  {
    var n := |history| - 1;
    if Delivers(history, k, sample) && !Offers(history[n].server, history[n].batch, k, sample) {
      var d :| 0 <= d < |history| && Offers(history[d].server, history[d].batch, k, sample);
      assert history[..n][d] == history[d];
    }
    if Delivers(history[..n], k, sample) {
      var d :| 0 <= d < n && Offers(history[..n][d].server, history[..n][d].batch, k, sample);
      assert history[..n][d] == history[d];
    }
  }

  /** After any history, duplicates included, there is one row per delivered key, holding a sample delivered
      under that key, and each bucket is the fold of exactly those rows. */
  lemma {:induction false} ExactlyOnce(history: seq<Delivery>)
    ensures Valid(SaveAll(EMPTY, history))
    ensures forall k :: k in SaveAll(EMPTY, history).samples ==>
              Delivers(history, k, SaveAll(EMPTY, history).samples[k].sample)
    ensures forall k, sample :: Delivers(history, k, sample) ==> k in SaveAll(EMPTY, history).samples
    decreases |history|
  {
    if history == [] {
      EmptyIsValid();
    } else {
      var n := |history| - 1;
      var rest, last := history[..n], history[n];
      ExactlyOnce(rest);
      SaveBatchEffect(SaveAll(EMPTY, rest), last.server, last.batch, last.previous);
      forall k, sample
        ensures Delivers(history, k, sample) <==>
                Delivers(rest, k, sample) || Offers(last.server, last.batch, k, sample)
      {
        DeliversSplits(history, k, sample);
      }
    }
  }

  /** The fields of a rollup that ignore the previous sample. */
  predicate SameOrderFree(a: Rollup, b: Rollup) {
    && a.count == b.count
    && a.cpuAverage == b.cpuAverage && a.cpuMinimum == b.cpuMinimum && a.cpuMaximum == b.cpuMaximum
    && a.memoryAverage == b.memoryAverage && a.memoryMinimum == b.memoryMinimum && a.memoryMaximum == b.memoryMaximum
    && a.diskAverage == b.diskAverage
    && a.switchesTotal == b.switchesTotal && a.retransmitsTotal == b.retransmitsTotal
  }

  lemma {:induction false} SameRowsSameRollups(a: Store, b: Store, bucket: BucketKey)
    requires Valid(a) && Valid(b)
    requires a.samples.Keys == b.samples.Keys
    requires forall k :: k in a.samples ==> a.samples[k].sample == b.samples[k].sample
    ensures bucket in a.rollups <==> bucket in b.rollups
    ensures bucket in a.rollups ==> SameOrderFree(a.rollups[bucket], b.rollups[bucket])
  {
    assert BucketFaithful(a, bucket) && BucketFaithful(b, bucket);
    var keys := BucketKeys(a.samples, bucket);
    assert keys == BucketKeys(b.samples, bucket);
    if bucket in a.rollups {
      var ra, rb := a.rollups[bucket], b.rollups[bucket];
      forall f: Field | OrderFree(f)
        ensures Accumulated(ra, f) == Accumulated(rb, f)
      {
        SumAgrees(keys, a.samples, b.samples, f);
      }
      BoundsAgree(keys, a.samples, b.samples, Cpu, ra.cpuMinimum, ra.cpuMaximum);
      BoundsAgree(keys, a.samples, b.samples, Memory, ra.memoryMinimum, ra.memoryMaximum);
      MeansAgree(ra, rb);
    }
  }

  lemma {:induction false} MeansAgree(a: Rollup, b: Rollup)
    requires a.count == b.count > 0
    requires forall f: Field :: OrderFree(f) ==> Accumulated(a, f) == Accumulated(b, f)
    ensures a.cpuAverage == b.cpuAverage && a.memoryAverage == b.memoryAverage && a.diskAverage == b.diskAverage
    ensures a.switchesTotal == b.switchesTotal && a.retransmitsTotal == b.retransmitsTotal
  {
    var n := a.count as real;
    assert Accumulated(a, Cpu) == Accumulated(b, Cpu);
    CancelFactor(a.cpuAverage, b.cpuAverage, n);
    assert Accumulated(a, Memory) == Accumulated(b, Memory);
    CancelFactor(a.memoryAverage, b.memoryAverage, n);
    assert Accumulated(a, Disk) == Accumulated(b, Disk);
    CancelFactor(a.diskAverage, b.diskAverage, n);
    assert Accumulated(a, Switches) == Accumulated(b, Switches);
    assert Accumulated(a, Retransmits) == Accumulated(b, Retransmits);
  }

  /** Two histories that deliver the same samples, in any order, batching and multiplicity, leave equal rollups. */
  lemma {:induction false} OrderIndependence(h1: seq<Delivery>, h2: seq<Delivery>, bucket: BucketKey)
    requires Consistent(h1)
    requires forall k, sample :: Delivers(h1, k, sample) <==> Delivers(h2, k, sample)
    ensures bucket in SaveAll(EMPTY, h1).rollups <==> bucket in SaveAll(EMPTY, h2).rollups
    ensures bucket in SaveAll(EMPTY, h1).rollups ==>
              SameOrderFree(SaveAll(EMPTY, h1).rollups[bucket], SaveAll(EMPTY, h2).rollups[bucket])
  {
    ExactlyOnce(h1);
    ExactlyOnce(h2);
    SameRowsSameRollups(SaveAll(EMPTY, h1), SaveAll(EMPTY, h2), bucket);
  }

  /** Clamping merges two sequences exactly when they differ and both reach the largest signed value. */
  lemma {:induction false} ClampMergesExactly(a: nat, b: nat)
    ensures Clamp(a) == Clamp(b) <==> a == b || (a >= MAX_INT64 && b >= MAX_INT64)
  {
  }
}
