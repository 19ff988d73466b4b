/** The weakest conditions under which the pipeline loses nothing, and the invariant that they keep. */
module PipelineLossFree {
  import opened Wrappers
  import opened Telemetry
  import opened MetricStore
  import opened AgentIdentity
  import opened BatchQueue
  import opened Pipeline

  // ----- The conditions -----

  /** Nothing of this boot is numbered at the top of the signed range yet. */
  predicate TopIsFree(s: State)
    requires s.agent.Up?
  {
    && (forall k :: k in s.store.samples && k.server == s.server && k.bootId == s.boot ==> k.sequence != MAX_INT64)
    && (forall b :: b in Sendable(s) && b.bootId == s.boot ==> Last(b) < MAX_INT64)
    && (forall i :: 0 <= i < |s.agent.pending| ==> s.agent.pending[i].sequence < MAX_INT64)
  }

  /** Queued behind the new batch although of its boot, and not stored yet. */
  predicate Overtaken(s: State, from: nat, x: MetricBatch) {
    exists i :: from <= i < |s.spool| && s.spool[i] == x && x.bootId == s.boot && !Committed(s.store, s.server, x)
  }

  /** The batch can still bring rows to the gateway's tables, or has done so. */
  predicate MayBeStored(s: State, b: MetricBatch) {
    Committed(s.store, s.server, b) || b in s.requests.Values
  }

  predicate Lossless(s: State, step: Step)
    requires Enabled(s, step)
  {
    match step
    case Collect(sample) => sample.None? || s.agent.memory.lastSequence < MAX_INT64 || TopIsFree(s)
    case Put(evict, at, _, _, _) => forall x :: x in s.spool ==> !Overtaken(s, evict + at, x)
    case Crash =>
      s.agent.unsaved.Some? ==>
        var b := s.agent.unsaved.value;
        b in s.spool || Recorded(s.file, b) || !MayBeStored(s, b)
    case _ => true
  }

  // ----- The invariant -----

  /** The batches that may still reach the gateway. */
  function Sendable(s: State): set<MetricBatch> {
    Elements(s.spool) + s.requests.Values
  }

  function AckOf(r: IdentityRecord): set<(string, nat)> {
    if r.acknowledgedBootId == "" then {} else {(r.acknowledgedBootId, r.acknowledgedSequence)}
  }

  /** The acknowledgements that some later prune may go by. */
  function Acks(s: State): set<(string, nat)> {
    AckOf(s.file)
    + if s.agent.Down? then {}
      else AckOf(s.agent.memory) + if s.agent.unsavedAck.Some? then {s.agent.unsavedAck.value} else {}
  }

  /** Sequences stay apart in the signed column, too. */
  predicate KeysDistinct(samples: seq<Sample>) {
    forall a, b :: a in samples && b in samples && Clamp(a.sequence) == Clamp(b.sequence) ==> a == b
  }

  predicate KeysApart(a: MetricBatch, b: MetricBatch) {
    a.bootId == b.bootId ==> Clamp(Last(a)) < Clamp(First(b)) || Clamp(Last(b)) < Clamp(First(a))
  }

  ghost predicate QueuesOk(s: State) {
    && s.boot != "" && s.boot in s.boots
    && (forall b :: b in Sendable(s) ==> Acceptable(b) && KeysDistinct(b.samples) && b.bootId in s.boots)
    && (forall a, b :: a in Sendable(s) && b in Sendable(s) && a != b ==> KeysApart(a, b))
  }

  /** Within one boot, nothing of a higher sequence is queued before a batch that is not stored yet. */
  predicate OrderedUnstored(q: Queue, store: Store, server: string) {
    forall i, j :: 0 <= i < j < |q| && q[i].bootId == q[j].bootId && !Committed(store, server, q[j])
      ==> Last(q[i]) < First(q[j])
  }

  /** Whatever the tables hold under a key of the batch is its own sample. */
  predicate Fits(store: Store, server: string, b: MetricBatch) {
    forall sample :: sample in b.samples && KeyOf(server, b.bootId, sample) in store.samples
      ==> Stored(store, server, b.bootId, sample)
  }

  ghost predicate RowsOk(s: State) {
    && (forall k :: k in s.store.samples && k.server == s.server ==> k.bootId in s.boots && k.sequence <= MAX_INT64)
    && (forall b :: b in Sendable(s) ==> Fits(s.store, s.server, b))
  }

  /** Pruning by this acknowledgement removes stored batches only. */
  ghost predicate PrunesStored(s: State, ack: (string, nat)) {
    && ack.0 in s.boots
    && forall x :: x in s.spool && CoveredBy(x, ack.0, ack.1) ==> Committed(s.store, s.server, x)
  }

  ghost predicate AcksOk(s: State) {
    forall ack :: ack in Acks(s) ==> PrunesStored(s, ack)
  }

  /** What is queued and covered by the batch is the batch itself, or stored. */
  ghost predicate Foremost(s: State, b: MetricBatch) {
    forall x :: x in s.spool && CoveredBy(x, b.bootId, Last(b)) ==> x == b || Committed(s.store, s.server, x)
  }

  /** The batch in flight: its file, if it is still there, is its own. */
  ghost predicate InFlight(s: State, b: MetricBatch) {
    && Foremost(s, b) && First(b) <= Last(b) && b.bootId in s.boots
    && forall x :: x in s.spool && SameFile(x, b) ==> x == b
  }

  predicate Answers(s: State, reply: Reply, b: MetricBatch) {
    reply.Ack? ==> b.bootId == reply.bootId && Last(b) == reply.through && Committed(s.store, s.server, b)
  }

  ghost predicate FlowOk(s: State) {
    && (forall id :: id in s.requests ==> id < s.nextStream && Foremost(s, s.requests[id]))
    && (forall id :: id in s.replies ==> id < s.nextStream && id !in s.requests)
    && (s.agent.Up? && s.agent.stream.Some? ==> StreamFlow(s, s.agent.stream.value, s.agent.unsavedAck))
    && (s.agent.Up? && s.agent.unsavedAck.Some? ==> s.agent.stream.Some?)
  }

  ghost predicate StreamFlow(s: State, stream: Stream, unsavedAck: Option<(string, nat)>) {
    && stream.id < s.nextStream
    && (stream.id in s.requests ==> stream.awaiting == Some(s.requests[stream.id]))
    && (stream.id in s.replies ==> stream.awaiting.Some? && Answers(s, s.replies[stream.id], stream.awaiting.value))
    && (stream.awaiting.Some? ==> InFlight(s, stream.awaiting.value) && unsavedAck.None?)
  }

  /** The sequence is at most n, or it belongs to the batch whose sequences are not saved yet. */
  predicate Below(sequence: nat, n: nat, unsaved: Option<MetricBatch>) {
    sequence <= n || (unsaved.Some? && sequence <= Last(unsaved.value))
  }

  /** What a batch, a stored row or an acknowledgement of this boot has used is at most n, unsaved batch aside. */
  ghost predicate UsedUpTo(s: State, n: nat, unsaved: Option<MetricBatch>) {
    && (forall b :: b in Sendable(s) && b.bootId == s.boot ==> Last(b) <= n || unsaved == Some(b))
    && (forall k :: k in s.store.samples && k.server == s.server && k.bootId == s.boot ==>
          k.sequence <= n || (Below(k.sequence, n, unsaved) && Committed(s.store, s.server, unsaved.value)))
    && (forall ack :: ack in Acks(s) && ack.0 == s.boot ==>
          ack.1 <= n || (Below(ack.1, n, unsaved) && Committed(s.store, s.server, unsaved.value)))
  }

  /** Nothing of this boot has used the sequence n or a later one. */
  ghost predicate Unused(s: State, n: nat) {
    && (forall b :: b in Sendable(s) && b.bootId == s.boot ==> Clamp(Last(b)) < Clamp(n))
    && (forall k :: k in s.store.samples && k.server == s.server && k.bootId == s.boot ==> k.sequence < Clamp(n))
    && (forall ack :: ack in Acks(s) && ack.0 == s.boot ==> ack.1 < n)
    && (s.agent.Up? && s.agent.stream.Some? && s.agent.stream.value.awaiting.Some? ==>
          s.agent.stream.value.awaiting.value.bootId == s.boot ==> Last(s.agent.stream.value.awaiting.value) < n)
  }

  ghost predicate PendingFresh(s: State, a: Agent)
    requires a.Up?
  {
    && (forall i, j :: 0 <= i < j < |a.pending| ==> Clamp(a.pending[i].sequence) < Clamp(a.pending[j].sequence))
    && (forall i :: 0 <= i < |a.pending| ==>
          0 < a.pending[i].sequence <= a.memory.lastSequence && Unused(s, a.pending[i].sequence))
  }

  predicate FlightUpTo(s: State, b: MetricBatch, n: nat, unsaved: Option<MetricBatch>) {
    b.bootId == s.boot ==> Last(b) <= n || unsaved == Some(b)
  }

  ghost predicate NumbersUp(s: State, a: Agent)
    requires a.Up?
  {
    && a.memory.bootId == s.boot && s.file.bootId == s.boot && s.file.lastSequence <= a.memory.lastSequence
    && UsedUpTo(s, a.memory.lastSequence, None)
    && UsedUpTo(s, s.file.lastSequence, a.unsaved)
    && (a.unsaved.Some? ==> a.unsaved.value.bootId == s.boot && Last(a.unsaved.value) <= a.memory.lastSequence)
    && (a.stream.Some? && a.stream.value.awaiting.Some? ==>
          FlightUpTo(s, a.stream.value.awaiting.value, a.memory.lastSequence, None)
          && FlightUpTo(s, a.stream.value.awaiting.value, s.file.lastSequence, a.unsaved))
  }

  ghost predicate NumbersOk(s: State) {
    if s.agent.Down? then UsedUpTo(s, ResumePoint(s.file, s.boot, Highest(s.spool, s.boot)), None)
    else PendingFresh(s, s.agent) && NumbersUp(s, s.agent)
  }

  /** Every batch ever put is still spooled, stored, evicted or quarantined. */
  ghost predicate NothingLost(s: State) {
    forall b :: b in s.put ==> Accounted(s, b)
  }

  ghost predicate LossFree(s: State) {
    && QueuesOk(s) && OrderedUnstored(s.spool, s.store, s.server) && RowsOk(s) && AcksOk(s) && FlowOk(s) && NumbersOk(s)
    && NothingLost(s)
  }

  // ----- The stronger invariant implies it -----

  lemma {:induction false} DistinctKeys(samples: seq<Sample>)
    requires PositiveDistinct(samples) && forall a :: a in samples ==> a.sequence <= MAX_INT64
    ensures KeysDistinct(samples)
  {
    forall a, b | a in samples && b in samples && Clamp(a.sequence) == Clamp(b.sequence) ensures a == b {
      SameSample(samples, a, b);
    }
  }

  lemma {:induction false} SendableWerePut(s: State, b: MetricBatch)
    requires SpoolOk(s) && TrafficOk(s) && b in Sendable(s)
    ensures b in s.put
  {
    if b in s.requests.Values {
      var id :| id in s.requests && s.requests[id] == b;
      assert WasHead(s, b);
    }
  }

  lemma {:induction false} PutFits(s: State, b: MetricBatch)
    requires BatchesOk(s) && StoreOk(s) && b in s.put
    ensures Fits(s.store, s.server, b) && KeysDistinct(b.samples)
  {
    assert Acceptable(b);
    hide BatchesOk, First, Last;
    forall a | a in b.samples ensures a.sequence <= MAX_INT64 {
      SpanOfSample(s, b, a);
    }
    DistinctKeys(b.samples);
    hide KeysDistinct;
    forall sample | sample in b.samples && KeyOf(s.server, b.bootId, sample) in s.store.samples
      ensures Stored(s.store, s.server, b.bootId, sample)
    {
      var k := KeyOf(s.server, b.bootId, sample);
      assert Witnessed(s, k);
      var b', sample' :| b' in s.put && sample' in b'.samples && KeyOf(s.server, b'.bootId, sample') == k
        && s.store.samples[k].sample == sample' && Committed(s.store, s.server, b');
      SpanOfSample(s, b, sample);
      SpanOfSample(s, b', sample');
      OneBatchPerSequence(s, b, b', sample.sequence);
      SameSample(b.samples, sample, sample');
    }
  }

  /** A stored row of this boot is numbered within a stored batch that was put. */
  lemma {:induction false} RowOfPut(s: State, k: Key) returns (b: MetricBatch)
    requires BatchesOk(s) && StoreOk(s) && k in s.store.samples && k.server == s.server
    ensures b in s.put && b.bootId == k.bootId && k.sequence <= Last(b) <= MAX_INT64 && Committed(s.store, s.server, b)
  {
    assert Witnessed(s, k);
    var sample;
    b, sample :| b in s.put && sample in b.samples && KeyOf(s.server, b.bootId, sample) == k
      && s.store.samples[k].sample == sample && Committed(s.store, s.server, b);
    assert First(b) <= sample.sequence <= Last(b) <= MAX_INT64;
  }

  lemma {:induction false} AckOfPut(s: State, ack: (string, nat)) returns (c: MetricBatch)
    requires RecordsOk(s) && ack in Acks(s)
    ensures c in s.put && c.bootId == ack.0 && Last(c) == ack.1 && Committed(s.store, s.server, c)
    ensures forall x :: x in s.spool && CoveredBy(x, ack.0, ack.1) ==> Committed(s.store, s.server, x)
  {
    assert AckSound(s, ack.0, ack.1);
    c :| c in s.put && c.bootId == ack.0 && Last(c) == ack.1 && Committed(s.store, s.server, c);
  }

  lemma {:induction false} InvQueuesAndRows(s: State)
    requires BatchesOk(s) && SpoolOk(s) && TrafficOk(s) && StoreOk(s)
    ensures QueuesOk(s) && RowsOk(s)
  {
    forall b | b in Sendable(s)
      ensures b in s.put && KeysDistinct(b.samples) && Fits(s.store, s.server, b) && First(b) <= Last(b) <= MAX_INT64
    {
      SendableWerePut(s, b);
      PutFits(s, b);
      PutSpan(s, b);
    }
    forall a, b | a in Sendable(s) && b in Sendable(s) && a != b ensures KeysApart(a, b) {
      assert Apart(a, b);
    }
    forall k | k in s.store.samples && k.server == s.server ensures k.bootId in s.boots && k.sequence <= MAX_INT64 {
      var b := RowOfPut(s, k);
    }
  }

  lemma {:induction false} InvAcks(s: State)
    requires BatchesOk(s) && RecordsOk(s)
    ensures AcksOk(s)
  {
    forall ack | ack in Acks(s) ensures PrunesStored(s, ack) {
      var c := AckOfPut(s, ack);
    }
  }

  lemma {:induction false} InvFlow(s: State)
    requires BatchesOk(s) && SpoolOk(s) && TrafficOk(s)
    ensures FlowOk(s)
  {
    if s.agent.Up? && s.agent.stream.Some? && s.agent.stream.value.awaiting.Some? {
      var b := s.agent.stream.value.awaiting.value;
      assert WasHead(s, b);
      PutSpan(s, b);
      forall x | x in s.spool && SameFile(x, b) ensures x == b {
        assert CoveredBy(x, b.bootId, Last(b));
      }
    }
  }

  /** Bounds on everything put bound what is used. */
  lemma {:induction false} UsedByPut(s: State, n: nat, unsaved: Option<MetricBatch>)
    requires BatchesOk(s) && SpoolOk(s) && RecordsOk(s) && TrafficOk(s) && StoreOk(s)
    requires forall b :: b in s.put && b.bootId == s.boot ==> Last(b) <= n || unsaved == Some(b)
    ensures UsedUpTo(s, n, unsaved)
  {
    hide BatchesOk, SpoolOk, RecordsOk, TrafficOk, StoreOk, Committed, Last, Sendable, Acks;
    forall b | b in Sendable(s) && b.bootId == s.boot ensures Last(b) <= n || unsaved == Some(b) {
      SendableWerePut(s, b);
    }
    forall k | k in s.store.samples && k.server == s.server && k.bootId == s.boot
      ensures k.sequence <= n || (Below(k.sequence, n, unsaved) && Committed(s.store, s.server, unsaved.value))
    {
      var b := RowOfPut(s, k);
    }
    forall ack | ack in Acks(s) && ack.0 == s.boot
      ensures ack.1 <= n || (Below(ack.1, n, unsaved) && Committed(s.store, s.server, unsaved.value))
    {
      var c := AckOfPut(s, ack);
    }
  }

  lemma {:induction false} UnusedByPut(s: State, n: nat)
    requires BatchesOk(s) && SpoolOk(s) && RecordsOk(s) && TrafficOk(s) && StoreOk(s)
    requires n <= MAX_INT64 && forall b :: b in s.put && b.bootId == s.boot ==> Last(b) < n
    ensures Unused(s, n)
  {
    if n > 0 {
      UsedByPut(s, n - 1, None);
    } else {
      forall b | b in Sendable(s) ensures b in s.put {
        SendableWerePut(s, b);
      }
      forall k | k in s.store.samples && k.server == s.server ensures k.bootId != s.boot {
        var b := RowOfPut(s, k);
      }
      forall ack | ack in Acks(s) ensures ack.0 != s.boot {
        var c := AckOfPut(s, ack);
      }
    }
    if s.agent.Up? && s.agent.stream.Some? && s.agent.stream.value.awaiting.Some? {
      assert WasHead(s, s.agent.stream.value.awaiting.value);
    }
  }

  lemma {:induction false} InvNumbers(s: State)
    requires Inv(s)
    ensures NumbersOk(s)
  {
    hide TrafficOk, StoreOk, RecordsOk, SpoolOk, UsedUpTo, Unused;
    if s.agent.Down? {
      UsedByPut(s, ResumePoint(s.file, s.boot, Highest(s.spool, s.boot)), None);
    } else {
      InvNumbersUp(s);
    }
  }

  lemma {:induction false} InvNumbersUp(s: State)
    requires Inv(s) && s.agent.Up?
    ensures PendingFresh(s, s.agent) && NumbersUp(s, s.agent)
  {
    assert s.agent.memory.lastSequence <= MAX_INT64;
    if s.agent.stream.Some? && s.agent.stream.value.awaiting.Some? {
      assert WasHead(s, s.agent.stream.value.awaiting.value);
    }
    hide TrafficOk, StoreOk, RecordsOk, SpoolOk, UsedUpTo, Unused, Last;
    UsedByPut(s, s.agent.memory.lastSequence, None);
    UsedByPut(s, s.file.lastSequence, s.agent.unsaved);
    forall i | 0 <= i < |s.agent.pending| ensures Unused(s, s.agent.pending[i].sequence) {
      UnusedByPut(s, s.agent.pending[i].sequence);
    }
  }

  lemma {:induction false} InvIsLossFree(s: State)
    requires Inv(s)
    ensures LossFree(s)
  {
    InvQueuesAndRows(s);
    InvAcks(s);
    InvFlow(s);
    InvNumbers(s);
    assert OrderedUnstored(s.spool, s.store, s.server);
  }
}
