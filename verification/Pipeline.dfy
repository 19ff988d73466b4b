/** The metric pipeline as a step system: one agent host with its spool and identity file, the streams to the
    gateway, and the gateway's tables. Every step is atomic; crashes, lost replies, redelivery, evictions and
    reboots may interleave freely. */
module Pipeline {
  import opened Wrappers
  import opened Telemetry
  import opened MetricStore
  import opened AgentIdentity
  import opened BatchQueue

  datatype Reply = Ack(bootId: string, through: nat) | Rejection

  /** The connect loop: the batch it awaits a reply for, if any. */
  datatype Stream = Stream(id: nat, awaiting: Option<MetricBatch>)

  datatype Agent =
    | Down
    | Up(memory: IdentityRecord,            // identity as held in memory
         pending: seq<Sample>,              // samples of the batch being collected
         unsaved: Option<MetricBatch>,      // batch put, but PersistSequence not yet done
         stream: Option<Stream>,
         unsavedAck: Option<(string, nat)>) // acknowledgement applied to the spool, but not yet saved

  datatype State = State(
    server: string,
    boot: string,
    boots: set<string>,                  // boot identifiers used so far
    agent: Agent,
    file: IdentityRecord,                // identity.json
    spool: Queue,                        // the spool directory
    store: Store,                        // the gateway's tables
    requests: map<nat, MetricBatch>,     // per stream: sent, not yet handled by the gateway
    replies: map<nat, Reply>,            // per stream: answered, not yet received
    nextStream: nat,
    // history
    put: set<MetricBatch>,
    evicted: set<MetricBatch>,
    quarantined: set<MetricBatch>,
    refused: set<MetricBatch>)

  datatype Step =
    | Start
    | Collect(sample: Option<Sample>)
    | Put(evict: nat, at: nat, agentId: string, inventory: nat, size: nat)
    | PutFailed(evict: nat)
    | PersistSequence
    | Connect
    | Send
    | Commit(id: nat, previous: NetworkSnapshot)
    | Refuse(id: nat)
    | Abandon(id: nat)
    | ReceiveAck
    | SaveAck
    | ReceiveRejection
    | Disconnect
    | Crash
    | Reboot(boot: string)

  /** A fresh host: nothing collected, spooled or stored yet. */
  predicate Init(s: State) {
    && s.boot != "" && s.boots == {s.boot}
    && s.agent == Down && s.file == BLANK && s.spool == []
    && s.store == EMPTY && s.requests == map[] && s.replies == map[]
    && s.put == {} && s.evicted == {} && s.quarantined == {} && s.refused == {}
  }

  predicate OnStream(s: State) {
    s.agent.Up? && s.agent.stream.Some? && s.agent.unsavedAck.None?
  }

  predicate Collecting(s: State) {
    s.agent.Up? && s.agent.unsaved.None?
  }

  /** What the gateway's validation always demands of a batch. */
  predicate Acceptable(b: MetricBatch) {
    b.samples != [] && PositiveDistinct(b.samples)
  }

  predicate Enabled(s: State, step: Step) {
    match step
    case Start => s.agent.Down?
    case Collect(_) => Collecting(s)
    case Put(evict, at, _, _, _) =>
      Collecting(s) && s.agent.pending != [] && evict <= |s.spool| && at <= |s.spool| - evict
    case PutFailed(evict) => Collecting(s) && s.agent.pending != [] && evict <= |s.spool|
    case PersistSequence => s.agent.Up? && s.agent.unsaved.Some?
    case Connect => s.agent.Up? && s.agent.stream.None?
    case Send => OnStream(s) && s.agent.stream.value.awaiting.None? && s.spool != []
    case Commit(id, _) => id in s.requests && Acceptable(s.requests[id])
    case Refuse(id) => id in s.requests
    case Abandon(id) => id in s.requests
    case ReceiveAck =>
      OnStream(s) && s.agent.stream.value.id in s.replies && s.replies[s.agent.stream.value.id].Ack?
    case SaveAck => s.agent.Up? && s.agent.unsavedAck.Some?
    case ReceiveRejection =>
      OnStream(s) && s.agent.stream.value.id in s.replies && s.replies[s.agent.stream.value.id].Rejection?
    case Disconnect => OnStream(s)
    case Crash => s.agent.Up?
    case Reboot(boot) => s.agent.Down? && boot != "" && boot !in s.boots
  }

  function Elements(q: Queue): set<MetricBatch> {
    set b | b in q
  }

  function NewBatch(s: State, step: Step): MetricBatch
    requires step.Put? && Enabled(s, step)
  {
    MetricBatch(step.agentId, s.boot, s.agent.pending, step.inventory, step.size)
  }

  /** The queue after an acknowledgement: the hot path removes the one batch in flight, the other path prunes. */
  function AfterAck(q: Queue, awaiting: Option<MetricBatch>, bootId: string, through: nat): Queue {
    if awaiting.Some? && CoveredBy(awaiting.value, bootId, through) then RemoveFile(q, awaiting.value)
    else Acknowledge(q, bootId, through)
  }

  function Apply(s: State, step: Step): State
    requires Enabled(s, step)
  {
    match step
    case Start =>
      var memory := Raise(s.file, s.boot, Highest(s.spool, s.boot));
      s.(agent := Up(memory, [], None, None, None), file := memory)
    case Collect(sample) =>
      var memory := Issue(s.agent.memory, s.boot);
      var pending := if sample.None? then s.agent.pending
                     else s.agent.pending + [sample.value.(sequence := memory.lastSequence)];
      s.(agent := s.agent.(memory := memory, pending := pending))
    case Put(evict, at, _, _, _) =>
      var b := NewBatch(s, step);
      s.(agent := s.agent.(pending := [], unsaved := Some(b)),
         spool := InsertAt(s.spool[evict..], b, at),
         put := s.put + {b},
         evicted := s.evicted + Elements(s.spool[..evict]))
    case PutFailed(evict) =>
      s.(agent := s.agent.(pending := []),
         spool := s.spool[evict..],
         evicted := s.evicted + Elements(s.spool[..evict]))
    case PersistSequence =>
      s.(agent := s.agent.(unsaved := None), file := s.agent.memory)
    case Connect =>
      var r := s.agent.memory;
      s.(agent := s.agent.(stream := Some(Stream(s.nextStream, None))),
         nextStream := s.nextStream + 1,
         spool := if r.acknowledgedBootId == "" then s.spool
                  else Acknowledge(s.spool, r.acknowledgedBootId, r.acknowledgedSequence))
    case Send =>
      var stream := s.agent.stream.value;
      s.(agent := s.agent.(stream := Some(stream.(awaiting := Some(s.spool[0])))),
         requests := s.requests[stream.id := s.spool[0]])
    case Commit(id, previous) =>
      var b := s.requests[id];
      s.(store := SaveBatch(s.store, s.server, b, previous),
         requests := s.requests - {id},
         replies := s.replies[id := Ack(b.bootId, Last(b))])
    case Refuse(id) =>
      s.(requests := s.requests - {id},
         replies := s.replies[id := Rejection],
         refused := s.refused + {s.requests[id]})
    case Abandon(id) =>
      s.(requests := s.requests - {id})
    case ReceiveAck =>
      var stream := s.agent.stream.value;
      var ack := s.replies[stream.id];
      var current := stream.awaiting.Some? && CoveredBy(stream.awaiting.value, ack.bootId, ack.through);
      s.(agent := s.agent.(stream := Some(if current then stream.(awaiting := None) else stream),
                           unsavedAck := Some((ack.bootId, ack.through))),
         spool := AfterAck(s.spool, stream.awaiting, ack.bootId, ack.through),
         replies := s.replies - {stream.id})
    case SaveAck =>
      var memory := Acknowledged(s.agent.memory, s.agent.unsavedAck.value.0, s.agent.unsavedAck.value.1);
      s.(agent := s.agent.(memory := memory, unsavedAck := None), file := memory)
    case ReceiveRejection =>
      var awaiting := s.agent.stream.value.awaiting;
      var queued := awaiting.Some? && IndexOf(s.spool, awaiting.value) < |s.spool|;
      s.(agent := s.agent.(stream := None),
         spool := if queued then RemoveFile(s.spool, awaiting.value) else s.spool,
         quarantined := if queued then s.quarantined + {awaiting.value} else s.quarantined)
    case Disconnect =>
      s.(agent := s.agent.(stream := None))
    case Crash =>
      s.(agent := Down)
    case Reboot(boot) =>
      s.(boot := boot, boots := s.boots + {boot})
  }

  // ----- The conditions a run must meet -----

  /** The identity file already accounts for this batch. */
  predicate Recorded(file: IdentityRecord, b: MetricBatch) {
    file.bootId == b.bootId && Last(b) <= file.lastSequence
  }

  /** Three conditions, each checkable before its step:
      sequences stay within the signed 64-bit range; the spool clock has not run back, so that a new batch is
      queued behind its own boot; and no crash falls after a batch left the spool but before its sequences
      were saved. */
  predicate Careful(s: State, step: Step)
    requires Enabled(s, step)
  {
    match step
    case Collect(_) => s.agent.memory.lastSequence < MAX_INT64
    case Put(evict, at, _, _, _) => forall i :: evict + at <= i < |s.spool| ==> s.spool[i].bootId != s.boot
    case Crash =>
      s.agent.unsaved.Some? ==> s.agent.unsaved.value in s.spool || Recorded(s.file, s.agent.unsaved.value)
    case _ => true
  }

  // ----- The invariant -----

  predicate Committed(store: Store, server: string, b: MetricBatch) {
    forall sample :: sample in b.samples ==> Stored(store, server, b.bootId, sample)
  }

  /** Pruning through this acknowledgement removes committed batches only. */
  ghost predicate AckSound(s: State, bootId: string, through: nat) {
    && (exists c :: c in s.put && c.bootId == bootId && Last(c) == through && Committed(s.store, s.server, c))
    && (forall x :: x in s.spool && CoveredBy(x, bootId, through) ==> Committed(s.store, s.server, x))
  }

  ghost predicate RecordSound(s: State, r: IdentityRecord) {
    && r.lastSequence <= MAX_INT64
    && (r.acknowledgedBootId != "" ==> AckSound(s, r.acknowledgedBootId, r.acknowledgedSequence))
  }

  /** A batch that was once at the head of the queue: nothing older of its boot is queued. */
  ghost predicate WasHead(s: State, b: MetricBatch) {
    && b in s.put
    && (forall x :: x in s.spool && CoveredBy(x, b.bootId, Last(b)) ==> x == b)
  }

  ghost predicate Apart(a: MetricBatch, b: MetricBatch) {
    a.bootId == b.bootId ==> Last(a) < First(b) || Last(b) < First(a)
  }

  ghost predicate BatchesOk(s: State) {
    && s.boot != "" && s.boot in s.boots
    && (forall b :: b in s.put ==> Acceptable(b) && Last(b) <= MAX_INT64 && b.bootId in s.boots)
    && (forall a, b :: a in s.put && b in s.put && a != b ==> Apart(a, b))
  }

  ghost predicate SpoolOk(s: State) {
    && BootOrdered(s.spool)
    && (forall b :: b in s.spool ==> b in s.put)
  }

  predicate Increasing(samples: seq<Sample>) {
    forall i, j :: 0 <= i < j < |samples| ==> samples[i].sequence < samples[j].sequence
  }

  ghost predicate PendingOk(s: State, a: Agent)
    requires a.Up?
  {
    && Increasing(a.pending)
    && (forall i :: 0 <= i < |a.pending| ==> 0 < a.pending[i].sequence <= a.memory.lastSequence)
    && (forall b, i :: b in s.put && b.bootId == s.boot && 0 <= i < |a.pending| ==> Last(b) < a.pending[i].sequence)
  }

  ghost predicate NumberingUp(s: State, a: Agent)
    requires a.Up?
  {
    && a.memory.bootId == s.boot && s.file.bootId == s.boot
    && s.file.lastSequence <= a.memory.lastSequence
    && (forall b :: b in s.put && b.bootId == s.boot ==> Last(b) <= a.memory.lastSequence)
    && (forall b :: b in s.put && b.bootId == s.boot && a.unsaved != Some(b) ==> Last(b) <= s.file.lastSequence)
    && (a.unsaved.Some? ==>
          && a.pending == [] && a.unsaved.value in s.put && a.unsaved.value.bootId == s.boot
          && forall x :: x in s.put && x.bootId == s.boot && x != a.unsaved.value ==> Last(x) < First(a.unsaved.value))
  }

  ghost predicate Resumable(s: State, b: MetricBatch) {
    Recorded(s.file, b) || Last(b) <= Highest(s.spool, s.boot)
  }

  ghost predicate NumberingOk(s: State) {
    if s.agent.Down? then forall b :: b in s.put && b.bootId == s.boot ==> Resumable(s, b)
    else PendingOk(s, s.agent) && NumberingUp(s, s.agent)
  }

  ghost predicate Accounted(s: State, b: MetricBatch) {
    b in s.spool || Committed(s.store, s.server, b) || b in s.evicted || b in s.quarantined
  }

  ghost predicate RecordsOk(s: State) {
    && RecordSound(s, s.file)
    && (s.agent.Up? ==> RecordSound(s, s.agent.memory))
    && (s.agent.Up? && s.agent.unsavedAck.Some? ==> AckSound(s, s.agent.unsavedAck.value.0, s.agent.unsavedAck.value.1))
  }

  ghost predicate ReplyMatches(s: State, reply: Reply, b: MetricBatch) {
    match reply
    case Ack(bootId, through) => b.bootId == bootId && Last(b) == through && Committed(s.store, s.server, b)
    case Rejection => b in s.refused
  }

  ghost predicate TrafficOk(s: State) {
    && (forall id :: id in s.requests ==> id < s.nextStream && WasHead(s, s.requests[id]))
    && (forall id :: id in s.replies ==> id < s.nextStream && id !in s.requests)
    && (s.agent.Up? && s.agent.stream.Some? ==> StreamOk(s, s.agent.stream.value, s.agent.unsavedAck))
    && (s.agent.Up? && s.agent.unsavedAck.Some? ==> s.agent.stream.Some?)
  }

  ghost predicate StreamOk(s: State, stream: Stream, unsavedAck: Option<(string, nat)>) {
    && stream.id < s.nextStream
    && (stream.id in s.requests ==> stream.awaiting == Some(s.requests[stream.id]))
    && (stream.id in s.replies ==>
         stream.awaiting.Some? && ReplyMatches(s, s.replies[stream.id], stream.awaiting.value))
    && (stream.awaiting.Some? ==> WasHead(s, stream.awaiting.value) && unsavedAck.None?)
  }

  ghost predicate Witnessed(s: State, k: Key)
    requires k in s.store.samples
  {
    exists b, sample :: b in s.put && sample in b.samples && KeyOf(s.server, b.bootId, sample) == k
      && s.store.samples[k].sample == sample && Committed(s.store, s.server, b)
  }

  ghost predicate StoreOk(s: State) {
    && Valid(s.store)
    && forall k :: k in s.store.samples ==> Witnessed(s, k)
  }

  /** A batch that is spooled has never left the spool. */
  ghost predicate HistoryOk(s: State) {
    && s.evicted <= s.put && s.quarantined <= s.put
    && (forall b :: b in s.spool ==> b !in s.evicted && b !in s.quarantined)
  }

  ghost predicate Inv(s: State) {
    && BatchesOk(s) && SpoolOk(s) && NumberingOk(s) && RecordsOk(s) && TrafficOk(s) && StoreOk(s)
    && (forall b :: b in s.put ==> Accounted(s, b))
    && s.quarantined <= s.refused && HistoryOk(s)
  }

  /**
   * What the surroundings may do at any time: lose power, drop a connection or a request, refuse a batch, fail a put
   * after any eviction, and leave a sample out.
   */
  lemma {:induction false} SurroundingsAreFree(s: State, id: nat, evict: nat, sample: Option<Sample>)
    ensures s.agent.Up? ==> Enabled(s, Crash)
    ensures s.agent.Up? && s.agent.stream.Some? && s.agent.unsavedAck.None? ==> Enabled(s, Disconnect)
    ensures s.agent.Up? && s.agent.stream.None? ==> Enabled(s, Connect)
    ensures s.agent.Up? && s.agent.unsaved.None? ==> Enabled(s, Collect(sample))
    ensures s.agent.Up? && s.agent.unsaved.None? && s.agent.pending != [] && evict <= |s.spool| ==>
              Enabled(s, PutFailed(evict))
    ensures id in s.requests ==> Enabled(s, Refuse(id)) && Enabled(s, Abandon(id))
    ensures s.agent.Down? ==> Enabled(s, Start)
  {
  }

  /** An acknowledgement that does not reach the batch in flight removes all that it covers, as one without it does. */
  lemma {:induction false} AckBelowFlight(q: Queue, b: MetricBatch, bootId: string, through: nat, x: MetricBatch)
    requires b.bootId != bootId || Last(b) > through
    ensures x in AfterAck(q, Some(b), bootId, through) <==> x in q && (x.bootId != bootId || Last(x) > through)
    ensures x in AfterAck(q, None, bootId, through) <==> x in q && (x.bootId != bootId || Last(x) > through)
  {
    AcknowledgeThins(q, bootId, through);
  }

  lemma {:induction false} InitInv(s: State)
    requires Init(s)
    ensures Inv(s)
  {
    EmptyIsValid();
  }

  // ----- Carrying facts from one state to the next -----

  ghost predicate Newer(s: State, x: MetricBatch) {
    forall c :: c in s.put && c.bootId == x.bootId ==> Last(c) < Last(x)
  }

  /** The queue of s' is made of queued batches of s, and of batches newer than all put so far;
      nothing put is forgotten and nothing committed is lost. */
  ghost predicate Extends(s: State, s': State) {
    && s'.server == s.server
    && s.put <= s'.put
    && (forall b :: b in s.put && Committed(s.store, s.server, b) ==> Committed(s'.store, s'.server, b))
    && (forall x :: x in s'.spool ==> x in s.spool || Newer(s, x))
  }

  lemma {:induction false} CarryAck(s: State, s': State, bootId: string, through: nat)
    requires SpoolOk(s) && Extends(s, s') && AckSound(s, bootId, through)
    ensures AckSound(s', bootId, through)
  {
  }

  lemma {:induction false} CarryHead(s: State, s': State, b: MetricBatch)
    requires Extends(s, s') && WasHead(s, b)
    ensures WasHead(s', b)
  {
  }

  lemma {:induction false} CarryRecord(s: State, s': State, r: IdentityRecord)
    requires SpoolOk(s) && Extends(s, s') && RecordSound(s, r)
    ensures RecordSound(s', r)
  {
    if r.acknowledgedBootId != "" {
      CarryAck(s, s', r.acknowledgedBootId, r.acknowledgedSequence);
    }
  }

  lemma {:induction false} CarryWitnesses(s: State, s': State)
    requires s'.server == s.server && s'.store == s.store && s.put <= s'.put
    requires StoreOk(s)
    ensures StoreOk(s')
  {
    forall k | k in s'.store.samples ensures Witnessed(s', k) {
      assert Witnessed(s, k);
      var b, sample :| b in s.put && sample in b.samples && KeyOf(s.server, b.bootId, sample) == k
        && s.store.samples[k].sample == sample && Committed(s.store, s.server, b);
    }
  }

  /** Numbering survives a step that touches neither the boot, the batches nor what the identity counts. */
  lemma {:induction false} CarryNumbering(s: State, s': State)
    requires BatchesOk(s) && NumberingOk(s)
    requires s'.boot == s.boot && s'.boots == s.boots && s'.put == s.put && s'.file == s.file
    requires if s.agent.Down? then s'.agent.Down? && s'.spool == s.spool
             else s'.agent.Up? && s'.agent.memory == s.agent.memory
                  && s'.agent.pending == s.agent.pending && s'.agent.unsaved == s.agent.unsaved
    ensures BatchesOk(s') && NumberingOk(s')
  {
  }

  lemma {:induction false} CarryAccounted(s: State, s': State)
    requires Extends(s, s') && s'.put == s.put && s.evicted <= s'.evicted && s.quarantined <= s'.quarantined
    requires forall b :: b in s.put ==> Accounted(s, b)
    requires forall b :: b in s.spool ==> Accounted(s', b)
    ensures forall b :: b in s'.put ==> Accounted(s', b)
  {
  }

  /** Everything about acknowledgements and streams survives a step that leaves them alone. */
  lemma {:induction false} CarryTraffic(s: State, s': State)
    requires SpoolOk(s) && Extends(s, s') && RecordsOk(s) && TrafficOk(s)
    requires s'.file == s.file || (s'.agent.Up? && s'.file == s'.agent.memory)
    requires s'.requests == s.requests && s'.replies == s.replies && s.nextStream <= s'.nextStream
    requires s.refused <= s'.refused
    requires s'.agent.Up? ==> RecordSound(s, s'.agent.memory)
    requires s'.agent.Up? ==>
               || (s'.agent.stream.None? && s'.agent.unsavedAck.None?)
               || (s.agent.Up? && s'.agent.stream == s.agent.stream && s'.agent.unsavedAck == s.agent.unsavedAck)
    ensures RecordsOk(s') && TrafficOk(s')
  {
    CarryRecord(s, s', s.file);
    if s'.agent.Up? {
      CarryRecord(s, s', s'.agent.memory);
      if s'.agent.unsavedAck.Some? {
        CarryAck(s, s', s.agent.unsavedAck.value.0, s.agent.unsavedAck.value.1);
      }
      if s'.agent.stream.Some? && s'.agent.stream.value.awaiting.Some? {
        CarryHead(s, s', s'.agent.stream.value.awaiting.value);
      }
    }
    forall id | id in s'.requests ensures WasHead(s', s'.requests[id]) {
      CarryHead(s, s', s.requests[id]);
    }
  }

  /** The same batches, and a queue that has gained nothing. */
  ghost predicate SameBatches(s: State, s': State) {
    && s'.server == s.server && s'.store == s.store && s'.boot == s.boot && s'.boots == s.boots && s'.put == s.put
    && (forall x :: x in s'.spool ==> x in s.spool)
  }

  lemma {:induction false} CarryBatches(s: State, s': State)
    requires SameBatches(s, s') && BatchesOk(s)
    ensures BatchesOk(s') && Extends(s, s')
  {
    hide Committed, First, Last, Acceptable;
  }

  lemma {:induction false} CarrySpool(s: State, s': State)
    requires SpoolOk(s) && s'.spool == s.spool && s.put <= s'.put
    ensures SpoolOk(s')
  {
    hide BootOrdered;
  }

  /** Everything but numbering and traffic survives a step that leaves the queue, the tables and the history alone. */
  lemma {:induction false} CarryQuietly(s: State, s': State)
    requires BatchesOk(s) && SpoolOk(s) && StoreOk(s) && s'.spool == s.spool
    requires s'.server == s.server && s'.store == s.store && s'.boot == s.boot && s'.boots == s.boots && s'.put == s.put
    requires s'.evicted == s.evicted && s'.quarantined == s.quarantined && s.quarantined <= s.refused <= s'.refused
    requires forall b :: b in s.put ==> Accounted(s, b)
    ensures BatchesOk(s') && SpoolOk(s') && StoreOk(s') && Extends(s, s') && s'.quarantined <= s'.refused
    ensures forall b :: b in s'.put ==> Accounted(s', b)
  {
    hide BatchesOk, SpoolOk, StoreOk, Committed;
    CarryBatches(s, s');
    CarrySpool(s, s');
    CarryWitnesses(s, s');
  }

  // ----- The history -----

  lemma {:induction false} QueuedOnce(s: State, i: nat, j: nat)
    requires BatchesOk(s) && SpoolOk(s) && i < j < |s.spool|
    ensures s.spool[i] != s.spool[j]
  {
    assert s.spool[i] in s.spool;
    PutSpan(s, s.spool[i]);
    LaterDiffers(s.spool, i, j);
  }

  lemma {:induction false} EvictedAreGone(s: State, k: nat)
    requires BatchesOk(s) && SpoolOk(s) && k <= |s.spool|
    ensures forall b :: b in s.spool[k..] ==> b in s.spool && b !in Elements(s.spool[..k])
    ensures Elements(s.spool[..k]) <= s.put
  {
    forall i, j | 0 <= i < k <= j < |s.spool| ensures s.spool[i] != s.spool[j] {
      QueuedOnce(s, i, j);
    }
    hide BatchesOk, SpoolOk;
  }

  lemma {:induction false} PutKeepsHistory(s: State, step: Step)
    requires Inv(s) && step.Put? && Enabled(s, step)
    ensures HistoryOk(Apply(s, step))
  {
    NewBatchIsNewest(s, step);
    EvictedAreGone(s, step.evict);
    hide BatchesOk, NumberingOk, RecordsOk, TrafficOk, StoreOk, Accounted, NewBatch, BootOrdered;
    var rest := s.spool[step.evict..];
    assert rest == rest[..step.at] + rest[step.at..];
    forall b | b in Apply(s, step).spool && b != NewBatch(s, step) ensures b in rest {
    }
  }

  lemma {:induction false} HistoryMoves(s: State, s': State, b: MetricBatch)
    requires HistoryOk(s) && b in s.put && s'.put == s.put && s'.evicted == s.evicted
    requires forall x :: x in s'.spool <==> x in s.spool && x != b
    requires s'.quarantined == s.quarantined || s'.quarantined == s.quarantined + {b}
    ensures HistoryOk(s')
  {
  }

  lemma {:induction false} RejectionKeepsHistory(s: State)
    requires Inv(s) && Enabled(s, ReceiveRejection)
    ensures HistoryOk(Apply(s, ReceiveRejection))
  {
    RejectedIsAwaited(s);
    var b := s.agent.stream.value.awaiting.value;
    assert HistoryOk(s) && BatchesOk(s) && SpoolOk(s) && b in s.put;
    hide *;
    HotPathAgrees(s, b);
    QuarantineMoves(s, b);
    HistoryMoves(s, Apply(s, ReceiveRejection), b);
  }

  lemma {:induction false} RejectedIsAwaited(s: State)
    requires Inv(s) && Enabled(s, ReceiveRejection)
    ensures s.agent.Up? && s.agent.stream.Some? && s.agent.stream.value.awaiting.Some?
    ensures WasHead(s, s.agent.stream.value.awaiting.value) && s.agent.stream.value.awaiting.value in s.put
  {
    ReplyIsForAwaiting(s);
    hide BatchesOk, SpoolOk, NumberingOk, RecordsOk, StoreOk, Accounted, HistoryOk;
  }

  lemma {:induction false} AckKeepsQueued(q: Queue, awaiting: Option<MetricBatch>, bootId: string, through: nat)
    ensures forall b :: b in AfterAck(q, awaiting, bootId, through) ==> b in q
  {
    AcknowledgeThins(q, bootId, through);
    if awaiting.Some? {
      RemoveThins(q, awaiting.value);
    }
  }

  lemma {:induction false} HistoryShrinks(s: State, s': State)
    requires HistoryOk(s) && s'.put == s.put && s'.evicted == s.evicted && s'.quarantined == s.quarantined
    requires forall x :: x in s'.spool ==> x in s.spool
    ensures HistoryOk(s')
  {
  }

  lemma {:induction false} AckShrinksSpool(s: State)
    requires Enabled(s, ReceiveAck)
    ensures var s' := Apply(s, ReceiveAck);
            && s'.put == s.put && s'.evicted == s.evicted && s'.quarantined == s.quarantined
            && (forall x :: x in s'.spool ==> x in s.spool)
  {
    var stream := s.agent.stream.value;
    AckKeepsQueued(s.spool, stream.awaiting, s.replies[stream.id].bootId, s.replies[stream.id].through);
    hide AfterAck;
  }

  lemma {:induction false} PutFailedKeepsHistory(s: State, evict: nat)
    requires Inv(s) && Enabled(s, PutFailed(evict))
    ensures HistoryOk(Apply(s, PutFailed(evict)))
  {
    EvictedAreGone(s, evict);
    hide BatchesOk, SpoolOk, NumberingOk, RecordsOk, TrafficOk, StoreOk, Accounted, Elements;
  }

  lemma {:induction false} KeepsSpool(s: State, step: Step)
    requires Enabled(s, step) && !step.Put? && !step.PutFailed? && !step.Connect?
    requires !step.ReceiveAck? && !step.ReceiveRejection?
    ensures var s' := Apply(s, step);
            s'.spool == s.spool && s'.put == s.put && s'.evicted == s.evicted && s'.quarantined == s.quarantined
  {
    hide SaveBatch, Raise, Issue, Acknowledged, Highest, Last, Acceptable;
  }

  lemma {:induction false} StepKeepsHistory(s: State, step: Step)
    requires Inv(s) && Enabled(s, step)
    ensures HistoryOk(Apply(s, step))
  {
    assert HistoryOk(s);
    match step
    case Put(_, _, _, _, _) => PutKeepsHistory(s, step);
    case PutFailed(evict) => PutFailedKeepsHistory(s, evict);
    case Connect =>
      ConnectThins(s);
      hide Inv, Acknowledge;
      HistoryShrinks(s, Apply(s, step));
    case ReceiveAck =>
      AckShrinksSpool(s);
      hide *;
      HistoryShrinks(s, Apply(s, step));
    case ReceiveRejection => RejectionKeepsHistory(s);
    case _ =>
      KeepsSpool(s, step);
      hide *;
      HistoryShrinks(s, Apply(s, step));
  }

  // ----- Each step -----

  lemma {:induction false} HighestInRange(s: State)
    requires BatchesOk(s) && SpoolOk(s)
    ensures Highest(s.spool, s.boot) <= MAX_INT64
  {
    hide Acceptable, BootOrdered, Apart, Last;
  }

  lemma {:induction false} StartKeepsRecord(s: State)
    requires RecordsOk(s) && Enabled(s, Start) && Highest(s.spool, s.boot) <= MAX_INT64
    ensures RecordSound(s, Apply(s, Start).file)
  {
    hide Highest, AckSound;
  }

  lemma {:induction false} StartNumbers(s: State)
    requires NumberingOk(s) && Enabled(s, Start)
    ensures NumberingOk(Apply(s, Start))
  {
    hide Highest, First, Last;
  }

  lemma {:induction false} StartKeepsNumbering(s: State)
    requires BatchesOk(s) && SpoolOk(s) && NumberingOk(s) && RecordsOk(s) && Enabled(s, Start)
    ensures NumberingOk(Apply(s, Start)) && RecordSound(s, Apply(s, Start).file)
  {
    hide BatchesOk, SpoolOk, NumberingOk, RecordsOk, RecordSound, Highest, Apply;
    HighestInRange(s);
    StartNumbers(s);
    StartKeepsRecord(s);
  }

  lemma {:induction false} StartKeepsTraffic(s: State)
    requires SpoolOk(s) && RecordsOk(s) && TrafficOk(s) && Enabled(s, Start) && RecordSound(s, Apply(s, Start).file)
    ensures RecordsOk(Apply(s, Start)) && TrafficOk(Apply(s, Start)) && Extends(s, Apply(s, Start))
  {
    hide Raise, Highest;
    assert Extends(s, Apply(s, Start));
    CarryTraffic(s, Apply(s, Start));
  }

  lemma {:induction false} StartKeepsInv(s: State)
    requires Inv(s) && Enabled(s, Start)
    ensures Inv(Apply(s, Start))
  {
    hide BatchesOk, SpoolOk, NumberingOk, RecordsOk, TrafficOk, StoreOk, HistoryOk, Accounted, Extends, RecordSound;
    hide Raise, Highest;
    StepKeepsHistory(s, Start);
    StartKeepsNumbering(s);
    StartKeepsTraffic(s);
    CarryQuietly(s, Apply(s, Start));
  }

  lemma {:induction false} CollectKeepsNumbering(s: State, step: Step)
    requires NumberingOk(s) && step.Collect? && Enabled(s, step)
    ensures NumberingOk(Apply(s, step))
  {
    hide Last, First;
    var a, a' := s.agent, Apply(s, step).agent;
    assert forall i :: 0 <= i < |a.pending| ==> a'.pending[i] == a.pending[i];
  }

  lemma {:induction false} CollectKeepsRecord(s: State, step: Step)
    requires RecordsOk(s) && step.Collect? && Enabled(s, step) && Careful(s, step)
    ensures RecordSound(s, Apply(s, step).agent.memory)
  {
    hide AckSound;
  }

  lemma {:induction false} CollectKeepsInv(s: State, step: Step)
    requires Inv(s) && step.Collect? && Enabled(s, step) && Careful(s, step)
    ensures Inv(Apply(s, step))
  {
    hide BatchesOk, SpoolOk, NumberingOk, RecordsOk, TrafficOk, StoreOk, HistoryOk, Accounted, Extends, RecordSound;
    var s' := Apply(s, step);
    StepKeepsHistory(s, step);
    CollectKeepsNumbering(s, step);
    CollectKeepsRecord(s, step);
    CarryQuietly(s, s');
    CarryTraffic(s, s');
  }

  lemma {:induction false} PersistKeepsNumbering(s: State)
    requires NumberingOk(s) && Enabled(s, PersistSequence)
    ensures NumberingOk(Apply(s, PersistSequence))
  {
    hide First, Last;
  }

  lemma {:induction false} MemoryIsSound(s: State)
    requires RecordsOk(s) && s.agent.Up?
    ensures RecordSound(s, s.agent.memory)
  {
  }

  lemma {:induction false} PersistKeepsInv(s: State)
    requires Inv(s) && Enabled(s, PersistSequence)
    ensures Inv(Apply(s, PersistSequence))
  {
    hide BatchesOk, SpoolOk, NumberingOk, RecordsOk, TrafficOk, StoreOk, HistoryOk, Accounted, Extends, RecordSound;
    var s' := Apply(s, PersistSequence);
    StepKeepsHistory(s, PersistSequence);
    PersistKeepsNumbering(s);
    MemoryIsSound(s);
    CarryQuietly(s, s');
    CarryTraffic(s, s');
  }

  lemma {:induction false} PutFailedKeepsQueue(s: State, step: Step)
    requires BatchesOk(s) && SpoolOk(s) && NumberingOk(s) && step.PutFailed? && Enabled(s, step)
    requires forall b :: b in s.put ==> Accounted(s, b)
    ensures var s' := Apply(s, step);
            && BatchesOk(s') && SpoolOk(s') && NumberingOk(s') && Extends(s, s')
            && forall b :: b in s'.put ==> Accounted(s', b)
  {
    var s' := Apply(s, step);
    EvictionAccounts(s.spool, step.evict);
    hide Committed, First, Last, Elements, BootOrdered, Acceptable;
    assert SameBatches(s, s');
    hide BatchesOk;
    CarryBatches(s, s');
    CarryAccounted(s, s');
  }

  lemma {:induction false} PutFailedKeepsInv(s: State, step: Step)
    requires Inv(s) && step.PutFailed? && Enabled(s, step)
    ensures Inv(Apply(s, step))
  {
    hide BatchesOk, SpoolOk, NumberingOk, RecordsOk, TrafficOk, StoreOk, HistoryOk, Accounted, Extends, RecordSound;
    var s' := Apply(s, step);
    StepKeepsHistory(s, step);
    PutFailedKeepsQueue(s, step);
    MemoryIsSound(s);
    CarryTraffic(s, s');
    CarryWitnesses(s, s');
  }

  lemma {:induction false} EvictionAccounts(q: Queue, k: nat)
    requires k <= |q|
    ensures forall b :: b in q ==> b in q[k..] || b in Elements(q[..k])
    ensures forall b :: b in q[k..] ==> b in q
    ensures BootOrdered(q) ==> BootOrdered(q[k..])
  {
    assert q == q[..k] + q[k..];
    DropThins(q, k);
  }

  lemma {:induction false} OneMoreBatch(s: State, s': State, b: MetricBatch)
    requires BatchesOk(s) && s'.boot == s.boot && s'.boots == s.boots && s'.put == s.put + {b}
    requires Acceptable(b) && Last(b) <= MAX_INT64 && b.bootId in s.boots
    requires forall c :: c in s.put && c.bootId == b.bootId ==> Last(c) < First(b)
    ensures BatchesOk(s')
  {
    hide Acceptable, First, Last;
    forall x, y | x in s'.put && y in s'.put && x != y
      ensures Apart(x, y)
    {
      assert (x in s.put && y in s.put) || x == b || y == b;
    }
  }

  lemma {:induction false} PutKeepsBatches(s: State, step: Step)
    requires Inv(s) && step.Put? && Enabled(s, step)
    ensures BatchesOk(Apply(s, step))
  {
    PendingIsAcceptable(s.agent.pending);
    NewBatchIsNewest(s, step);
    hide SpoolOk, RecordsOk, TrafficOk, StoreOk, HistoryOk, Accounted, First, Last;
    OneMoreBatch(s, Apply(s, step), NewBatch(s, step));
  }

  lemma {:induction false} PutKeepsSpool(s: State, step: Step)
    requires Inv(s) && step.Put? && Enabled(s, step) && Careful(s, step)
    ensures SpoolOk(Apply(s, step)) && Extends(s, Apply(s, step))
    ensures NewBatch(s, step) in Apply(s, step).spool
  {
    var b := NewBatch(s, step);
    NewBatchIsNewest(s, step);
    EvictionAccounts(s.spool, step.evict);
    var rest := s.spool[step.evict..];
    forall i | step.at <= i < |rest| ensures rest[i].bootId != s.boot {
      assert rest[i] == s.spool[step.evict + i];
    }
    InsertKeepsOrder(rest, b, step.at);
    assert Newer(s, b);
  }

  lemma {:induction false} PutKeepsNumbering(s: State, step: Step)
    requires Inv(s) && step.Put? && Enabled(s, step)
    ensures NumberingOk(Apply(s, step))
  {
    NewBatchIsNewest(s, step);
  }

  lemma {:induction false} PutAccounts(s: State, step: Step)
    requires (forall b :: b in s.put ==> Accounted(s, b)) && step.Put? && Enabled(s, step)
    requires NewBatch(s, step) in Apply(s, step).spool
    ensures forall x :: x in Apply(s, step).put ==> Accounted(Apply(s, step), x)
  {
    hide Stored, First, Last;
    var s' := Apply(s, step);
    var rest := s.spool[step.evict..];
    EvictionAccounts(s.spool, step.evict);
    assert rest == rest[..step.at] + rest[step.at..];
    forall x | x in s'.put ensures Accounted(s', x) {
      if x in s.put {
        assert Accounted(s, x);
      }
    }
  }

  lemma {:induction false} PutKeepsInv(s: State, step: Step)
    requires Inv(s) && step.Put? && Enabled(s, step) && Careful(s, step)
    ensures Inv(Apply(s, step))
  {
    StepKeepsHistory(s, step);
    hide TrafficOk, StoreOk, BatchesOk, NumberingOk;
    var s' := Apply(s, step);
    PutKeepsBatches(s, step);
    PutKeepsSpool(s, step);
    PutKeepsNumbering(s, step);
    CarryTraffic(s, s');
    CarryWitnesses(s, s');
    PutAccounts(s, step);
  }

  lemma {:induction false} PendingIsAcceptable(samples: seq<Sample>)
    requires samples != [] && Increasing(samples)
    requires forall i :: 0 <= i < |samples| ==> 0 < samples[i].sequence
    ensures samples != [] && PositiveDistinct(samples)
    ensures FirstSequence(samples) > 0
  {
  }

  lemma {:induction false} NewBatchIsNewest(s: State, step: Step)
    requires BatchesOk(s) && NumberingOk(s) && RecordsOk(s) && step.Put? && Enabled(s, step)
    ensures var b := NewBatch(s, step);
            b !in s.put && 0 < First(b) <= Last(b) <= s.agent.memory.lastSequence
            && (forall c :: c in s.put && c.bootId == b.bootId ==> Last(c) < First(b))
  {
    var b := NewBatch(s, step);
    assert First(b) <= b.samples[0].sequence <= Last(b);
  }

  lemma {:induction false} InsertKeepsOrder(q: Queue, b: MetricBatch, at: nat)
    requires BootOrdered(q) && at <= |q|
    requires forall i :: 0 <= i < |q| && q[i].bootId == b.bootId ==> Last(q[i]) < First(b)
    requires forall i :: at <= i < |q| ==> q[i].bootId != b.bootId
    ensures BootOrdered(InsertAt(q, b, at))
    ensures b in InsertAt(q, b, at)
    ensures forall x :: x in InsertAt(q, b, at) <==> x in q || x == b
  {
    var r := InsertAt(q, b, at);
    assert r[at] == b;
    assert q == q[..at] + q[at..];
    forall i, j | 0 <= i < j < |r| && r[i].bootId == r[j].bootId
      ensures Last(r[i]) < First(r[j])
    {
      if i != at && j != at {
        assert r[i] == q[if i < at then i else i - 1] && r[j] == q[if j < at then j else j - 1];
      }
    }
  }

  lemma {:induction false} ThinnedSpool(s: State, s': State)
    requires SpoolOk(s) && s'.put == s.put && s'.store == s.store && s'.server == s.server
    requires Thins(s'.spool, s.spool)
    ensures SpoolOk(s') && Extends(s, s')
  {
  }

  lemma {:induction false} ConnectThins(s: State)
    requires SpoolOk(s) && RecordsOk(s) && Enabled(s, Connect)
    ensures Thins(Apply(s, Connect).spool, s.spool)
    ensures forall b :: b in s.spool && b !in Apply(s, Connect).spool ==> Committed(s.store, s.server, b)
  {
    var r := s.agent.memory;
    if r.acknowledgedBootId != "" {
      AcknowledgeThins(s.spool, r.acknowledgedBootId, r.acknowledgedSequence);
    } else {
      DropThins(s.spool, 0);
      assert s.spool[0..] == s.spool;
    }
  }

  lemma {:induction false} ConnectKeepsTraffic(s: State)
    requires SpoolOk(s) && RecordsOk(s) && TrafficOk(s) && Enabled(s, Connect) && Extends(s, Apply(s, Connect))
    ensures RecordsOk(Apply(s, Connect)) && TrafficOk(Apply(s, Connect))
  {
    var s' := Apply(s, Connect);
    CarryRecord(s, s', s.file);
    CarryRecord(s, s', s.agent.memory);
    forall id | id in s'.requests ensures WasHead(s', s'.requests[id]) {
      CarryHead(s, s', s.requests[id]);
    }
    assert StreamOk(s', s'.agent.stream.value, None);
  }

  lemma {:induction false} ConnectKeepsInv(s: State)
    requires Inv(s) && Enabled(s, Connect)
    ensures Inv(Apply(s, Connect))
    // Pruning on connect removes committed batches only.
    ensures forall b :: b in s.spool && b !in Apply(s, Connect).spool ==> Committed(s.store, s.server, b)
  {
    StepKeepsHistory(s, Connect);
    hide BatchesOk, NumberingOk, RecordsOk, TrafficOk, StoreOk, SpoolOk;
    var s' := Apply(s, Connect);
    ConnectThins(s);
    ThinnedSpool(s, s');
    ConnectKeepsTraffic(s);
    CarryNumbering(s, s');
    CarryWitnesses(s, s');
    CarryAccounted(s, s');
  }

  lemma {:induction false} HeadOfQueue(s: State)
    requires BatchesOk(s) && SpoolOk(s) && s.spool != []
    ensures WasHead(s, s.spool[0])
  {
    var b := s.spool[0];
    forall x | x in s.spool && CoveredBy(x, b.bootId, Last(b))
      ensures x == b
    {
      var i :| 0 <= i < |s.spool| && s.spool[i] == x;
      assert Acceptable(x) && First(x) <= Last(x);
      assert i > 0 ==> Last(b) < First(x);
    }
  }

  lemma {:induction false} SendKeepsTraffic(s: State)
    requires SpoolOk(s) && RecordsOk(s) && TrafficOk(s) && Enabled(s, Send) && WasHead(s, s.spool[0])
    ensures RecordsOk(Apply(s, Send)) && TrafficOk(Apply(s, Send))
  {
    var s' := Apply(s, Send);
    assert Extends(s, s');
    CarryHead(s, s', s.spool[0]);
    forall id | id in s'.requests ensures WasHead(s', s'.requests[id]) {
      CarryHead(s, s', s'.requests[id]);
    }
    CarryRecord(s, s', s.file);
    CarryRecord(s, s', s.agent.memory);
  }

  lemma {:induction false} SendKeepsInv(s: State)
    requires Inv(s) && Enabled(s, Send)
    ensures Inv(Apply(s, Send))
  {
    hide BatchesOk, SpoolOk, NumberingOk, RecordsOk, TrafficOk, StoreOk, HistoryOk, Accounted, Extends, RecordSound;
    hide WasHead;
    var s' := Apply(s, Send);
    StepKeepsHistory(s, Send);
    HeadOfQueue(s);
    SendKeepsTraffic(s);
    CarryNumbering(s, s');
    CarryQuietly(s, s');
  }

  // ----- The gateway -----

  lemma {:induction false} SameSample(samples: seq<Sample>, a: Sample, b: Sample)
    requires PositiveDistinct(samples) && a in samples && b in samples && a.sequence == b.sequence
    ensures a == b
  {
  }

  lemma {:induction false} SpanOfSample(s: State, b: MetricBatch, sample: Sample)
    requires BatchesOk(s) && b in s.put && sample in b.samples
    ensures First(b) <= sample.sequence <= Last(b) <= MAX_INT64
  {
    assert Acceptable(b);
  }

  lemma {:induction false} OneBatchPerSequence(s: State, a: MetricBatch, b: MetricBatch, n: nat)
    requires BatchesOk(s) && a in s.put && b in s.put && a.bootId == b.bootId
    requires First(a) <= n <= Last(a) && First(b) <= n <= Last(b)
    ensures a == b
  {
    assert a == b || Apart(a, b);
  }

  /** Rows under one key come from one batch, so a saved batch is stored with its own samples. */
  lemma {:induction false} SavedIsCommitted(s: State, b: MetricBatch, previous: NetworkSnapshot)
    requires BatchesOk(s) && StoreOk(s) && b in s.put
    ensures Committed(SaveBatch(s.store, s.server, b, previous), s.server, b)
  {
    var st' := SaveBatch(s.store, s.server, b, previous);
    SaveBatchEffect(s.store, s.server, b, previous);
    assert Acceptable(b);
    hide BatchesOk, First, Last, SaveBatch;
    forall sample | sample in b.samples
      ensures Stored(st', s.server, b.bootId, sample)
    {
      var k := KeyOf(s.server, b.bootId, sample);
      assert Offers(s.server, b, k, sample);
      SpanOfSample(s, b, sample);
      if k in s.store.samples {
        assert Witnessed(s, k);
        var b', sample' :| b' in s.put && sample' in b'.samples && KeyOf(s.server, b'.bootId, sample') == k
          && s.store.samples[k].sample == sample' && Committed(s.store, s.server, b');
        SpanOfSample(s, b', sample');
        OneBatchPerSequence(s, b, b', sample.sequence);
        SameSample(b.samples, sample, sample');
      } else {
        var sample' := st'.samples[k].sample;
        assert Offers(s.server, b, k, sample');
        SpanOfSample(s, b, sample');
        SameSample(b.samples, sample, sample');
      }
    }
  }

  lemma {:induction false} CommitKeepsStore(s: State, step: Step)
    requires Inv(s) && step.Commit? && Enabled(s, step)
    ensures StoreOk(Apply(s, step)) && Extends(s, Apply(s, step))
    ensures Committed(Apply(s, step).store, s.server, s.requests[step.id])
  {
    var s' := Apply(s, step);
    var b := s.requests[step.id];
    SaveBatchEffect(s.store, s.server, b, step.previous);
    SavedIsCommitted(s, b, step.previous);
    forall k | k in s'.store.samples ensures Witnessed(s', k) {
      if k in s.store.samples {
        assert Witnessed(s, k);
        var b', sample :| b' in s.put && sample in b'.samples && KeyOf(s.server, b'.bootId, sample) == k
          && s.store.samples[k].sample == sample && Committed(s.store, s.server, b');
      } else {
        assert Offers(s.server, b, k, s'.store.samples[k].sample);
      }
    }
  }

  lemma {:induction false} StillAccounted(s: State, s': State)
    requires Extends(s, s') && s'.put == s.put && s'.spool == s.spool
    requires s'.evicted == s.evicted && s'.quarantined == s.quarantined
    requires forall b :: b in s.put ==> Accounted(s, b)
    ensures forall b :: b in s'.put ==> Accounted(s', b)
  {
    hide Committed, First, Last;
  }

  /** What a commit leaves alone. */
  lemma {:induction false} CommitFrame(s: State, step: Step)
    requires step.Commit? && Enabled(s, step)
    ensures var s', b := Apply(s, step), s.requests[step.id];
            && s'.server == s.server && s'.boot == s.boot && s'.boots == s.boots && s'.agent == s.agent
            && s'.file == s.file
            && s'.spool == s.spool && s'.nextStream == s.nextStream && s'.put == s.put && s'.evicted == s.evicted
            && s'.quarantined == s.quarantined && s'.refused == s.refused && s'.requests == s.requests - {step.id}
            && s'.replies == s.replies[step.id := Ack(b.bootId, Last(b))]
  {
    hide SaveBatch, Last;
  }

  lemma {:induction false} CommitKeepsInv(s: State, step: Step)
    requires Inv(s) && step.Commit? && Enabled(s, step)
    ensures Inv(Apply(s, step))
  {
    var s' := Apply(s, step);
    CommitFrame(s, step);
    hide BatchesOk, SpoolOk, NumberingOk, RecordsOk, TrafficOk, StoreOk, HistoryOk, Accounted, Extends, RecordSound;
    hide SaveBatch, Apply, Last, Acceptable, Committed;
    StepKeepsHistory(s, step);
    CommitKeepsStore(s, step);
    CarrySpool(s, s');
    GatewayKeepsTraffic(s, s', step.id, Some(Ack(s.requests[step.id].bootId, Last(s.requests[step.id]))));
    CarryNumbering(s, s');
    StillAccounted(s, s');
  }

  lemma {:induction false} RefuseKeepsInv(s: State, step: Step)
    requires Inv(s) && step.Refuse? && Enabled(s, step)
    ensures Inv(Apply(s, step))
  {
    hide BatchesOk, SpoolOk, NumberingOk, RecordsOk, TrafficOk, StoreOk, HistoryOk, Accounted, Extends, RecordSound;
    var s' := Apply(s, step);
    StepKeepsHistory(s, step);
    CarryQuietly(s, s');
    GatewayKeepsTraffic(s, s', step.id, Some(Rejection));
    CarryNumbering(s, s');
  }

  lemma {:induction false} AbandonKeepsInv(s: State, step: Step)
    requires Inv(s) && step.Abandon? && Enabled(s, step)
    ensures Inv(Apply(s, step))
  {
    hide BatchesOk, SpoolOk, NumberingOk, RecordsOk, TrafficOk, StoreOk, HistoryOk, Accounted, Extends, RecordSound;
    var s' := Apply(s, step);
    StepKeepsHistory(s, step);
    CarryQuietly(s, s');
    GatewayKeepsTraffic(s, s', step.id, None);
    CarryNumbering(s, s');
  }

  /** The gateway takes one request off its stream and may answer it truthfully. */
  lemma {:induction false} GatewayKeepsTraffic(s: State, s': State, id: nat, answer: Option<Reply>)
    requires SpoolOk(s) && RecordsOk(s) && TrafficOk(s) && Extends(s, s')
    requires s'.agent == s.agent && s'.file == s.file && s'.nextStream == s.nextStream && s.refused <= s'.refused
    requires id in s.requests && s'.requests == s.requests - {id}
    requires s'.replies == if answer.None? then s.replies else s.replies[id := answer.value]
    requires answer.Some? ==> ReplyMatches(s', answer.value, s.requests[id])
    ensures RecordsOk(s') && TrafficOk(s')
  {
    CarryRecord(s, s', s.file);
    if s.agent.Up? {
      CarryRecord(s, s', s.agent.memory);
      if s.agent.unsavedAck.Some? {
        CarryAck(s, s', s.agent.unsavedAck.value.0, s.agent.unsavedAck.value.1);
      }
      if s.agent.stream.Some? {
        var stream := s.agent.stream.value;
        if stream.awaiting.Some? {
          CarryHead(s, s', stream.awaiting.value);
        }
        assert StreamOk(s', stream, s.agent.unsavedAck);
      }
    }
    forall i | i in s'.requests ensures WasHead(s', s'.requests[i]) {
      CarryHead(s, s', s.requests[i]);
    }
  }

  // ----- Replies -----

  /** On a reachable queue, removing the acknowledged batch in flight and pruning through it are the same. */
  lemma {:induction false} HotPathAgrees(s: State, b: MetricBatch)
    requires BatchesOk(s) && SpoolOk(s) && WasHead(s, b)
    ensures RemoveFile(s.spool, b) == Acknowledge(s.spool, b.bootId, Last(b))
    ensures forall x :: x in RemoveFile(s.spool, b) <==> x in s.spool && x != b
  {
    PutSpan(s, b);
    hide BatchesOk, SpoolOk, WasHead, First, Last;
    var at := IndexOf(s.spool, b);
    forall i | 0 <= i < |s.spool|
      ensures CoveredBy(s.spool[i], b.bootId, Last(b)) <==> i == at
      ensures s.spool[i] == b <==> i == at
    {
      HeadIsAt(s, b, at, i);
    }
    OnlyOneRemoved(s.spool, b);
  }

  lemma {:induction false} OnlyOneRemoved(q: Queue, b: MetricBatch)
    requires forall i :: 0 <= i < |q| ==> (CoveredBy(q[i], b.bootId, Last(b)) <==> i == IndexOf(q, b))
    requires forall i :: 0 <= i < |q| ==> (q[i] == b <==> i == IndexOf(q, b))
    ensures RemoveFile(q, b) == Acknowledge(q, b.bootId, Last(b))
    ensures forall x :: x in RemoveFile(q, b) <==> x in q && x != b
  {
    hide CoveredBy, Last;
    var at := IndexOf(q, b);
    PruneOneAt(q, |q|, b.bootId, Last(b), at);
    if at < |q| {
      RemovedMembers(q, at);
      assert q[at + 1..|q|] == q[at + 1..];
    } else {
      assert q[..|q|] == q;
    }
  }

  lemma {:induction false} PutSpan(s: State, b: MetricBatch)
    requires BatchesOk(s) && b in s.put
    ensures First(b) <= Last(b)
  {
    assert Acceptable(b);
  }

  lemma {:induction false} HeadIsAt(s: State, b: MetricBatch, at: nat, i: nat)
    requires SpoolOk(s) && WasHead(s, b) && First(b) <= Last(b)
    requires at == IndexOf(s.spool, b) && i < |s.spool|
    ensures CoveredBy(s.spool[i], b.bootId, Last(b)) <==> i == at
    ensures s.spool[i] == b <==> i == at
  {
    assert s.spool[i] in s.spool;
    if at < |s.spool| {
      assert s.spool[at] in s.spool;
      assert s.spool[at] == b;
      if at < i {
        LaterDiffers(s.spool, at, i);
      }
    }
  }

  lemma {:induction false} LaterDiffers(q: Queue, i: nat, j: nat)
    requires BootOrdered(q) && i < j < |q| && First(q[i]) <= Last(q[i])
    ensures q[i] != q[j]
  {
    assert q[i].bootId == q[j].bootId ==> Last(q[i]) < First(q[j]);
  }

  /** The only reply a stream can have under way answers the batch in flight. */
  lemma {:induction false} ReplyIsForAwaiting(s: State)
    requires TrafficOk(s) && OnStream(s) && s.agent.stream.value.id in s.replies
    ensures var stream := s.agent.stream.value;
            stream.awaiting.Some? && WasHead(s, stream.awaiting.value) && stream.id !in s.requests
            && ReplyMatches(s, s.replies[stream.id], stream.awaiting.value)
  {
  }

  lemma {:induction false} ReceiveAckKeepsTraffic(s: State, b: MetricBatch)
    requires SpoolOk(s) && RecordsOk(s) && TrafficOk(s) && Enabled(s, ReceiveAck)
    requires s.agent.stream.value.awaiting == Some(b)
    requires Extends(s, Apply(s, ReceiveAck)) && b !in Apply(s, ReceiveAck).spool
    ensures RecordsOk(Apply(s, ReceiveAck)) && TrafficOk(Apply(s, ReceiveAck))
  {
    var s' := Apply(s, ReceiveAck);
    ReplyIsForAwaiting(s);
    CarryHead(s, s', b);
    CarryRecord(s, s', s.file);
    CarryRecord(s, s', s.agent.memory);
    assert AckSound(s', b.bootId, Last(b)) by {
      assert b in s'.put && Last(b) == Last(b);
    }
    forall i | i in s'.requests ensures WasHead(s', s'.requests[i]) {
      CarryHead(s, s', s.requests[i]);
    }
    assert StreamOk(s', s'.agent.stream.value, s'.agent.unsavedAck);
  }

  lemma {:induction false} ReceiveAckKeepsInv(s: State)
    requires Inv(s) && Enabled(s, ReceiveAck)
    ensures Inv(Apply(s, ReceiveAck))
    // The reply always acknowledges the batch in flight, which is committed; nothing else is removed.
    ensures var awaiting := s.agent.stream.value.awaiting;
            awaiting.Some? && Committed(s.store, s.server, awaiting.value)
            && s.replies[s.agent.stream.value.id] == Ack(awaiting.value.bootId, Last(awaiting.value))
            && forall x :: x in Apply(s, ReceiveAck).spool <==> x in s.spool && x != awaiting.value
  {
    StepKeepsHistory(s, ReceiveAck);
    hide BatchesOk, NumberingOk, RecordsOk, TrafficOk, StoreOk, SpoolOk;
    var s' := Apply(s, ReceiveAck);
    ReplyIsForAwaiting(s);
    var b := s.agent.stream.value.awaiting.value;
    HotPathAgrees(s, b);
    RemoveThins(s.spool, b);
    ThinnedSpool(s, s');
    ReceiveAckKeepsTraffic(s, b);
    CarryNumbering(s, s');
    CarryWitnesses(s, s');
    CarryAccounted(s, s');
  }

  lemma {:induction false} SaveAckKeepsTraffic(s: State)
    requires SpoolOk(s) && RecordsOk(s) && TrafficOk(s) && Enabled(s, SaveAck)
    ensures RecordsOk(Apply(s, SaveAck)) && TrafficOk(Apply(s, SaveAck))
  {
    var s' := Apply(s, SaveAck);
    assert Extends(s, s');
    var ack := s.agent.unsavedAck.value;
    var memory := Acknowledged(s.agent.memory, ack.0, ack.1);
    assert RecordSound(s, memory);
    CarryRecord(s, s', memory);
    forall i | i in s'.requests ensures WasHead(s', s'.requests[i]) {
      CarryHead(s, s', s.requests[i]);
    }
    assert StreamOk(s', s.agent.stream.value, None);
  }

  lemma {:induction false} SaveAckKeepsNumbering(s: State)
    requires NumberingOk(s) && Enabled(s, SaveAck)
    ensures NumberingOk(Apply(s, SaveAck))
  {
    hide First, Last;
  }

  lemma {:induction false} SaveAckKeepsInv(s: State)
    requires Inv(s) && Enabled(s, SaveAck)
    ensures Inv(Apply(s, SaveAck))
  {
    hide BatchesOk, SpoolOk, NumberingOk, RecordsOk, TrafficOk, StoreOk, HistoryOk, Accounted, Extends, RecordSound;
    var s' := Apply(s, SaveAck);
    StepKeepsHistory(s, SaveAck);
    SaveAckKeepsNumbering(s);
    SaveAckKeepsTraffic(s);
    CarryQuietly(s, s');
  }

  lemma {:induction false} QuarantineMoves(s: State, b: MetricBatch)
    requires Enabled(s, ReceiveRejection) && s.agent.stream.value.awaiting == Some(b)
    ensures var s' := Apply(s, ReceiveRejection);
            && s'.spool == RemoveFile(s.spool, b)
            && s'.quarantined == (if IndexOf(s.spool, b) < |s.spool| then s.quarantined + {b} else s.quarantined)
            && s'.put == s.put && s'.evicted == s.evicted
    ensures IndexOf(s.spool, b) == |s.spool| ==> RemoveFile(s.spool, b) == s.spool
  {
  }

  lemma {:induction false} RejectionThins(s: State, b: MetricBatch)
    requires BatchesOk(s) && SpoolOk(s) && WasHead(s, b) && Enabled(s, ReceiveRejection)
    requires s.agent.stream.value.awaiting == Some(b)
    ensures var s' := Apply(s, ReceiveRejection);
            && Thins(s'.spool, s.spool) && s.quarantined <= s'.quarantined
            && (forall x :: x in s.spool ==> x in s'.spool || x in s'.quarantined)
            && (forall x :: x in s'.quarantined ==> x in s.quarantined || x == b)
  {
    hide *;
    var s' := Apply(s, ReceiveRejection);
    HotPathAgrees(s, b);
    QuarantineMoves(s, b);
    OneMovedAside(s.spool, s'.spool, s.quarantined, s'.quarantined, b, IndexOf(s.spool, b) < |s.spool|);
    RemoveThins(s.spool, b);
  }

  lemma {:induction false} OneMovedAside(q: Queue, q': Queue, aside: set<MetricBatch>, aside': set<MetricBatch>,
                                         b: MetricBatch, moved: bool)
    requires forall x :: x in q' <==> x in q && x != b
    requires aside' == if moved then aside + {b} else aside
    requires !moved ==> q' == q
    ensures aside <= aside' && forall x :: x in aside' ==> x in aside || x == b
    ensures forall x :: x in q ==> x in q' || x in aside'
  {
  }

  lemma {:induction false} ReceiveRejectionKeepsInv(s: State)
    requires Inv(s) && Enabled(s, ReceiveRejection)
    ensures Inv(Apply(s, ReceiveRejection))
  {
    hide BatchesOk, NumberingOk, RecordsOk, TrafficOk, StoreOk, SpoolOk, HistoryOk, Committed, Extends;
    StepKeepsHistory(s, ReceiveRejection);
    var s' := Apply(s, ReceiveRejection);
    ReplyIsForAwaiting(s);
    var b := s.agent.stream.value.awaiting.value;
    RejectionThins(s, b);
    ThinnedSpool(s, s');
    EndStream(s, s');
    CarryNumbering(s, s');
    CarryWitnesses(s, s');
    hide RemoveFile, IndexOf, WasHead;
    forall x | x in s.put ensures Accounted(s', x) {
      assert Accounted(s, x);
    }
  }

  lemma {:induction false} DisconnectKeepsInv(s: State)
    requires Inv(s) && Enabled(s, Disconnect)
    ensures Inv(Apply(s, Disconnect))
  {
    hide BatchesOk, SpoolOk, NumberingOk, RecordsOk, TrafficOk, StoreOk, HistoryOk, Accounted, Extends, RecordSound;
    var s' := Apply(s, Disconnect);
    StepKeepsHistory(s, Disconnect);
    CarryQuietly(s, s');
    EndStream(s, s');
    CarryNumbering(s, s');
  }

  /** Ending a stream: replies still under way to it are never received. */
  lemma {:induction false} EndStream(s: State, s': State)
    requires SpoolOk(s) && Extends(s, s') && RecordsOk(s) && TrafficOk(s)
    requires s'.file == s.file && s'.nextStream == s.nextStream
    requires s'.requests == s.requests && s'.replies.Keys <= s.replies.Keys
    requires s'.agent.Up? ==> s.agent.Up? && s'.agent.memory == s.agent.memory
                              && s'.agent.stream.None? && s'.agent.unsavedAck.None?
    ensures RecordsOk(s') && TrafficOk(s')
  {
    CarryRecord(s, s', s.file);
    if s'.agent.Up? {
      CarryRecord(s, s', s.agent.memory);
    }
    forall id | id in s'.requests ensures WasHead(s', s'.requests[id]) {
      CarryHead(s, s', s.requests[id]);
    }
  }

  lemma {:induction false} CrashKeepsNumbering(s: State)
    requires NumberingOk(s) && Enabled(s, Crash) && Careful(s, Crash)
    ensures NumberingOk(Apply(s, Crash))
  {
    hide First, Last, PendingOk;
  }

  lemma {:induction false} CrashKeepsInv(s: State)
    requires Inv(s) && Enabled(s, Crash) && Careful(s, Crash)
    ensures Inv(Apply(s, Crash))
  {
    hide BatchesOk, SpoolOk, NumberingOk, RecordsOk, TrafficOk, StoreOk, HistoryOk, Accounted, Extends, RecordSound;
    hide Careful;
    var s' := Apply(s, Crash);
    StepKeepsHistory(s, Crash);
    CrashKeepsNumbering(s);
    CarryQuietly(s, s');
    EndStream(s, s');
  }

  lemma {:induction false} RebootKeepsBatches(s: State, step: Step)
    requires BatchesOk(s) && step.Reboot? && Enabled(s, step)
    ensures BatchesOk(Apply(s, step)) && NumberingOk(Apply(s, step)) && Extends(s, Apply(s, step))
  {
    hide First, Last, Acceptable, Committed;
  }

  lemma {:induction false} RebootKeepsInv(s: State, step: Step)
    requires Inv(s) && step.Reboot? && Enabled(s, step)
    ensures Inv(Apply(s, step))
  {
    hide BatchesOk, SpoolOk, NumberingOk, RecordsOk, TrafficOk, StoreOk, HistoryOk, Accounted, Extends, RecordSound;
    var s' := Apply(s, step);
    StepKeepsHistory(s, step);
    RebootKeepsBatches(s, step);
    CarrySpool(s, s');
    CarryWitnesses(s, s');
    EndStream(s, s');
    StillAccounted(s, s');
  }
}
