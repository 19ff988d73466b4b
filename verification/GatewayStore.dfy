/** The gateway's store operations on the metric tables, each one database transaction. */
module GatewayStore {
  import opened Wrappers
  import opened Telemetry
  import opened MetricStore
  import opened MetricRates

  datatype SaveError = Unauthorized | InventoryWithoutSequence

  /** The snapshot of some latest stored row of the server, or the zero snapshot if it has none. */
  ghost predicate IsPrevious(samples: map<Key, Row>, server: string, snapshot: NetworkSnapshot) {
    if forall k :: k in samples ==> k.server != server
    then snapshot == NetworkSnapshot(ZERO_TIME, 0, 0)
    else exists k :: k in samples && k.server == server
           && snapshot.sampledAt == Moment(samples[k].sample)
           && snapshot.receive == Stored63(samples[k].sample.receiveTotal)
           && snapshot.transmit == Stored63(samples[k].sample.transmitTotal)
           && forall k' :: k' in samples && k'.server == server ==>
                Moment(samples[k'].sample) <= snapshot.sampledAt
  }

  /** A counter as the signed column keeps it. */
  function Stored63(total: nat): nat {
    if total <= 0x7fff_ffff_ffff_ffff then total else 0x7fff_ffff_ffff_ffff
  }

  function StoredSnapshot(row: Row): NetworkSnapshot {
    NetworkSnapshot(TimeOf(row.sample.sampledAtNanos), Clamp(row.sample.receiveTotal), Clamp(row.sample.transmitTotal))
  }

  /** The highest sequence of a batch, and zero for a batch without samples. */
  function ThroughSequence(samples: seq<Sample>): (through: nat)
    ensures samples == [] ==> through == 0
    ensures samples != [] ==> exists i :: 0 <= i < |samples| && samples[i].sequence == through
    ensures forall i :: 0 <= i < |samples| ==> samples[i].sequence <= through
  {
    if samples == [] then 0 else LastSequence(samples)
  }

  ghost predicate NewRowsHold(before: map<Key, Row>, after: map<Key, Row>, server: string, batch: MetricBatch,
                              first: Reading)
  {
    forall k :: k in after && k !in before ==>
      exists i :: HoldsSample(k, after[k], server, batch.bootId, SortBySequence(batch.samples), i, first)
  }

  class MetricTables {
    var samples: map<Key, Row>
    var rollups: map<BucketKey, Rollup>

    ghost function State(): Store
      reads this
    {
      Store(samples, rollups)
    }

    constructor ()
      ensures State() == EMPTY && Valid(State())
    {
      samples, rollups := map[], map[];
      EmptyIsValid();
    }

    method LoadPreviousNetwork(server: string) returns (snapshot: NetworkSnapshot)
      ensures IsPrevious(samples, server, snapshot)
    {
      var pending := set k | k in samples && k.server == server;
      if pending == {} {
        assert forall k :: k in samples && k.server == server ==> k in pending;
        return NetworkSnapshot(ZERO_TIME, 0, 0);
      }
      var latest :| latest in pending;
      ghost var seen: set<Key> := {};
      while pending != {}
        invariant latest in samples && latest.server == server
        invariant forall k :: k in pending ==> k in samples && k.server == server
        invariant forall k :: k in samples && k.server == server ==> k in pending || k in seen
        invariant forall k :: k in seen && k in samples ==>
                    TimeOf(samples[k].sample.sampledAtNanos) <= TimeOf(samples[latest].sample.sampledAtNanos)
        decreases |pending|
      {
        var k :| k in pending;
        if TimeOf(samples[latest].sample.sampledAtNanos) < TimeOf(samples[k].sample.sampledAtNanos) {
          latest := k;
        }
        pending, seen := pending - {k}, seen + {k};
      }
      snapshot := StoredSnapshot(samples[latest]);
    }

    /** Insert one sample on its own; reports whether its key was new. */
    method InsertSystemSample(server: string, bootId: string, sample: Sample, rates: (real, real))
      returns (inserted: bool)
      modifies this`samples
      ensures inserted == (KeyOf(server, bootId, sample) !in old(samples))
      ensures samples == if inserted then old(samples)[KeyOf(server, bootId, sample) := Row(sample, rates.0, rates.1)]
                         else old(samples)
    {
      var key := KeyOf(server, bootId, sample);
      inserted := key !in samples;
      if inserted {
        samples := samples[key := Row(sample, rates.0, rates.1)];
      }
    }

    method UpsertSystemRollup(server: string, sample: Sample, rates: (real, real))
      modifies this`rollups
      ensures rollups ==
              var bucket := BucketKey(server, BucketOf(sample));
              var row := Row(sample, rates.0, rates.1);
              old(rollups)[bucket := if bucket in old(rollups)
                                     then NextRollup(old(rollups)[bucket], row)
                                     else FirstRollup(row)]
    {
      var bucket := BucketKey(server, BucketOf(sample));
      var row := Row(sample, rates.0, rates.1);
      if bucket in rollups {
        rollups := rollups[bucket := NextRollup(rollups[bucket], row)];
      } else {
        rollups := rollups[bucket := FirstRollup(row)];
      }
    }

    /** One transaction: sort, then insert each sample and fold each new one, with rates against its predecessor. */
    method SaveMetricBatch(agentId: string, server: string, batch: MetricBatch) returns (r: Result<nat, SaveError>)
      modifies this
      ensures r.Err? ==> State() == old(State())
      ensures batch.agentId != agentId <==> r == Err(Unauthorized)
      ensures r == Err(InventoryWithoutSequence)
        <==> batch.agentId == agentId && ThroughSequence(batch.samples) == 0 && batch.inventory > 0
      ensures r.Ok? ==> r.value == ThroughSequence(batch.samples)
      ensures r.Ok? ==> exists previous :: IsPrevious(old(samples), server, previous)
                          && State() == SaveBatch(old(State()), server, batch, previous)
      // Each new row holds a sample of the batch with the rates since the one before it in the batch, or stored before.
      ensures r.Ok? ==> exists previous :: IsPrevious(old(samples), server, previous)
                          && NewRowsHold(old(samples), samples, server, batch, ReadingOf(previous))
      ensures old(Valid(State())) ==> Valid(State())
    {
      if batch.agentId != agentId {
        return Err(Unauthorized);
      }
      var sorted := SortBySequence(batch.samples);
      SortedMembers(batch.samples);
      var through: nat := 0;
      for i := 0 to |sorted|
        invariant forall j :: 0 <= j < i ==> sorted[j].sequence <= through
        invariant through == 0 || exists j :: 0 <= j < i && sorted[j].sequence == through
      {
        if sorted[i].sequence > through {
          through := sorted[i].sequence;
        }
      }
      ThroughIsMaximum(batch.samples, sorted, through);
      if through == 0 && batch.inventory > 0 {
        return Err(InventoryWithoutSequence);
      }
      var previous := LoadPreviousNetwork(server);
      ghost var loaded := previous;
      for i := 0 to |sorted|
        invariant SaveSamples(State(), server, batch.bootId, sorted[i..], previous)
               == SaveSamples(old(State()), server, batch.bootId, sorted, loaded)
      {
        var current := SnapshotOf(sorted[i]);
        var rates := NetworkRates(current, previous);
        ghost var before := State();
        var inserted := InsertSystemSample(server, batch.bootId, sorted[i], rates);
        if inserted {
          UpsertSystemRollup(server, sorted[i], rates);
        }
        assert State() == SaveSample(before, server, batch.bootId, sorted[i], previous);
        assert sorted[i..][1..] == sorted[i + 1..];
        previous := current;
      }
      assert State() == SaveBatch(old(State()), server, batch, loaded);
      AddedRowsHoldSamples(old(State()), server, batch.bootId, sorted, loaded);
      assert NewRowsHold(old(samples), samples, server, batch, ReadingOf(loaded));
      if old(Valid(State())) {
        SaveBatchEffect(old(State()), server, batch, loaded);
      }
      r := Ok(through);
    }
  }

  lemma {:induction false} ThroughIsMaximum(samples: seq<Sample>, sorted: seq<Sample>, through: nat)
    requires forall s :: s in sorted <==> s in samples
    requires forall j :: 0 <= j < |sorted| ==> sorted[j].sequence <= through
    requires through == 0 || exists j :: 0 <= j < |sorted| && sorted[j].sequence == through
    ensures through == ThroughSequence(samples)
  {
    forall i | 0 <= i < |samples| ensures samples[i].sequence <= through {
      assert samples[i] in sorted;
    }
    if through > 0 {
      var j :| 0 <= j < |sorted| && sorted[j].sequence == through;
      assert sorted[j] in samples;
    }
  }
}
