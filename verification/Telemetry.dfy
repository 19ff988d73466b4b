/** Host samples and the batches that carry them from the agent to the gateway. */
module Telemetry {

  /** One host sample. Disk usage and network counters are already aggregated over devices. */
  datatype Sample = Sample(
    sequence: nat,
    sampledAtNanos: int,
    cpuPercent: real,
    memoryPercent: real,
    diskPercent: real,
    receiveTotal: nat,
    transmitTotal: nat,
    schedulerSwitches: nat,
    tcpRetransmits: nat)

  datatype MetricBatch = MetricBatch(
    agentId: string,
    bootId: string,
    samples: seq<Sample>,
    inventory: nat,      // pods and containers carried along
    encodedSize: nat)    // bytes of the deterministic protobuf encoding

  function Min(a: nat, b: nat): nat {
    if b < a then b else a
  }

  function Max(a: nat, b: nat): nat {
    if a < b then b else a
  }

  function FirstSequence(samples: seq<Sample>): (first: nat)
    requires samples != []
    ensures exists i :: 0 <= i < |samples| && samples[i].sequence == first
    ensures forall i :: 0 <= i < |samples| ==> first <= samples[i].sequence
  {
    var n := |samples| - 1;
    if n == 0 then samples[0].sequence
    else Min(FirstSequence(samples[..n]), samples[n].sequence)
  }

  function LastSequence(samples: seq<Sample>): (last: nat)
    requires samples != []
    ensures exists i :: 0 <= i < |samples| && samples[i].sequence == last
    ensures forall i :: 0 <= i < |samples| ==> samples[i].sequence <= last
  {
    var n := |samples| - 1;
    if n == 0 then samples[0].sequence
    else Max(LastSequence(samples[..n]), samples[n].sequence)
  }

  /** The sequence checks of the gateway's batch validation. */
  predicate PositiveDistinct(samples: seq<Sample>) {
    && (forall i :: 0 <= i < |samples| ==> samples[i].sequence > 0)
    && (forall i, j :: 0 <= i < j < |samples| ==> samples[i].sequence != samples[j].sequence)
  }

  /** The validation loop with its `seen` set accepts exactly the batches with positive, distinct sequences. */
  method ValidateSequences(samples: seq<Sample>) returns (valid: bool)
    ensures valid <==> PositiveDistinct(samples)
  {
    var seen: set<nat> := {};
    for i := 0 to |samples|
      invariant PositiveDistinct(samples[..i])
      invariant forall q :: q in seen <==> exists j :: 0 <= j < i && samples[j].sequence == q
    {
      var sequence := samples[i].sequence;
      if sequence == 0 || sequence in seen {
        return false;
      }
      seen := seen + {sequence};
    }
    assert samples[..|samples|] == samples;
    return true;
  }

  predicate SortedBySequence(samples: seq<Sample>) {
    forall i, j :: 0 <= i < j < |samples| ==> samples[i].sequence <= samples[j].sequence
  }

  /** Insert a sample before the first one that does not precede it. */
  function InsertBySequence(samples: seq<Sample>, sample: Sample): seq<Sample> {
    if samples == [] || sample.sequence <= samples[0].sequence then [sample] + samples
    else [samples[0]] + InsertBySequence(samples[1..], sample)
  }

  /** The samples in order of sequence; the sort is only free to choose among ties, which validation excludes. */
  function SortBySequence(samples: seq<Sample>): seq<Sample> {
    if samples == [] then [] else InsertBySequence(SortBySequence(samples[1..]), samples[0])
  }

  lemma {:induction false} InsertIsPermutation(samples: seq<Sample>, sample: Sample)
    ensures multiset(InsertBySequence(samples, sample)) == multiset(samples) + multiset{sample}
  {
    if samples == [] || sample.sequence <= samples[0].sequence {
      assert multiset([sample] + samples) == multiset{sample} + multiset(samples);
    } else {
      InsertIsPermutation(samples[1..], sample);
      assert samples == [samples[0]] + samples[1..];
    }
  }

  lemma {:induction false} InsertKeepsSorted(samples: seq<Sample>, sample: Sample)
    requires SortedBySequence(samples)
    ensures SortedBySequence(InsertBySequence(samples, sample))
  {
    if samples != [] && samples[0].sequence < sample.sequence {
      InsertKeepsSorted(samples[1..], sample);
      var r := InsertBySequence(samples[1..], sample);
      forall i | 0 <= i < |r| ensures samples[0].sequence <= r[i].sequence {
        InsertIsPermutation(samples[1..], sample);
        assert r[i] in multiset(r);
        if r[i] != sample {
          assert r[i] in samples[1..];
        }
      }
      assert InsertBySequence(samples, sample) == [samples[0]] + r;
    }
  }

  lemma {:induction false} SortIsSortedPermutation(samples: seq<Sample>)
    ensures SortedBySequence(SortBySequence(samples))
    ensures multiset(SortBySequence(samples)) == multiset(samples)
  {
    if samples != [] {
      SortIsSortedPermutation(samples[1..]);
      InsertKeepsSorted(SortBySequence(samples[1..]), samples[0]);
      InsertIsPermutation(SortBySequence(samples[1..]), samples[0]);
      assert samples == [samples[0]] + samples[1..];
    }
  }
}
