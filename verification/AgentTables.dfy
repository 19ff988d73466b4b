/** Pairing tokens, agent identities and connection leases: the gateway's identity tables. Each operation is one
    transaction; the effect of each on the tables is a function of the tables before it. */
module AgentTables {
  import opened Wrappers

  datatype Status = Paired | Connected | Offline | Revoked | Pending

  datatype Token = Token(workspace: string, server: string, used: bool, revoked: bool, expiresAt: int)

  datatype Agent = Agent(
    id: string,
    workspace: string,
    instance: string,
    serial: string,
    expiresAt: int,
    status: Status,
    revoked: bool,
    connection: Option<string>,
    seen: bool)  // since it was registered

  datatype Server = Server(workspace: string, agentMode: bool, status: Status)

  /** Tables keyed by token hash, by server (one identity per server), and by server. */
  datatype Tables = Tables(tokens: map<string, Token>, agents: map<string, Agent>, servers: map<string, Server>)

  datatype Registration = Registration(id: string, instance: string, serial: string, expiresAt: int)

  /** What a stream knows of its agent, read once when it was authorised. */
  datatype Record = Record(id: string, workspace: string, server: string)

  datatype StoreError = TokenInvalid | Unauthorized | Conflict

  // ----- Effects -----

  predicate TokenUsable(t: Token, now: int) {
    !t.used && !t.revoked && t.expiresAt > now
  }

  predicate Consumable(s: Tables, hash: string, workspace: string, server: string, now: int) {
    && hash in s.tokens && TokenUsable(s.tokens[hash], now)
    && s.tokens[hash].workspace == workspace && s.tokens[hash].server == server
  }

  /** Another server's identity already has this agent or instance identifier, or the server is gone. */
  predicate Conflicts(s: Tables, server: string, r: Registration) {
    || server !in s.servers
    || exists other :: other in s.agents && other != server
         && (s.agents[other].id == r.id || s.agents[other].instance == r.instance)
  }

  function SetServerStatus(s: Tables, server: string, workspace: string, status: Status): Tables {
    if server in s.servers && s.servers[server].workspace == workspace
    then s.(servers := s.servers[server := s.servers[server].(status := status)])
    else s
  }

  /** The upsert keeps the workspace of the row it replaces. */
  function InWorkspaceOf(s: Tables, server: string, agent: Agent): Agent {
    if server in s.agents then agent.(workspace := s.agents[server].workspace) else agent
  }

  function Registered(s: Tables, hash: string, workspace: string, server: string, r: Registration): Tables
    requires hash in s.tokens
  {
    var agent := Agent(r.id, workspace, r.instance, r.serial, r.expiresAt, Paired, false, None, false);
    SetServerStatus(s.(tokens := s.tokens[hash := s.tokens[hash].(used := true)],
                       agents := s.agents[server := InWorkspaceOf(s, server, agent)]),
                    server, workspace, Pending)
  }

  /** The server whose identity row has this agent identifier. */
  predicate RowOf(s: Tables, server: string, id: string) {
    server in s.agents && s.agents[server].id == id
  }

  function LowerCase(c: char): char {
    if 'A' <= c <= 'Z' then 'a' + (c - 'A') else c
  }

  /** Serials are compared without regard to the case of their letters. */
  function Fold(serial: string): string {
    seq(|serial|, i requires 0 <= i < |serial| => LowerCase(serial[i]))
  }

  /** The same text, capital letters counting as small ones. */
  predicate SameUpToCase(one: string, other: string) {
    && |one| == |other|
    && forall i :: 0 <= i < |one| ==>
         || one[i] == other[i]
         || ('A' <= one[i] <= 'Z' && other[i] as int == one[i] as int + 32)
         || ('A' <= other[i] <= 'Z' && one[i] as int == other[i] as int + 32)
  }

  lemma {:induction false} FoldsAlikeExactly(one: string, other: string)
    ensures Fold(one) == Fold(other) <==> SameUpToCase(one, other)
  {
    if Fold(one) == Fold(other) {
      assert |one| == |Fold(one)| == |other|;
      forall i | 0 <= i < |one| ensures LowerCase(one[i]) == LowerCase(other[i]) {
        assert Fold(one)[i] == Fold(other)[i];
      }
    }
    if SameUpToCase(one, other) {
      CaseFoldsAway(one, other);
    }
  }

  lemma {:induction false} CaseFoldsAway(one: string, other: string)
    requires SameUpToCase(one, other)
    ensures Fold(one) == Fold(other)
  {
    forall i | 0 <= i < |one| ensures LowerCase(one[i]) == LowerCase(other[i]) {
    }
  }

  /** The pair is the current identity of the server and may connect. */
  predicate Authorises(s: Tables, server: string, id: string, serial: string, now: int) {
    && RowOf(s, server, id)
    && var a := s.agents[server];
       !a.revoked && Fold(a.serial) == Fold(serial) && now <= a.expiresAt && a.status != Revoked
  }

  function MarkRow(s: Tables, id: string, f: Agent -> Agent): Tables {
    s.(agents :=
         map server | server in s.agents :: if s.agents[server].id == id then f(s.agents[server]) else s.agents[server])
  }

  function ConnectedAs(connection: string): Agent -> Agent {
    (a: Agent) => a.(connection := Some(connection), status := Connected, seen := true)
  }

  function SeenAlive(): Agent -> Agent {
    (a: Agent) => a.(status := Connected, seen := true)
  }

  function WithSerial(serial: string, expiresAt: int): Agent -> Agent {
    (a: Agent) => a.(serial := serial, expiresAt := expiresAt)
  }

  function GoneOffline(): Agent -> Agent {
    (a: Agent) => a.(status := Offline, connection := None)
  }

  function ConnectEffect(s: Tables, record: Record, connection: string): Tables {
    SetServerStatus(MarkRow(s, record.id, ConnectedAs(connection)), record.server, record.workspace, Connected)
  }

  /** A heartbeat or a saved batch. */
  function AliveEffect(s: Tables, record: Record): Tables {
    SetServerStatus(MarkRow(s, record.id, SeenAlive()), record.server, record.workspace, Connected)
  }

  predicate Holds(s: Tables, id: string, connection: string) {
    exists server :: server in s.agents && RowOf(s, server, id) && s.agents[server].connection == Some(connection)
      && s.agents[server].status != Revoked
  }

  /** A disconnect only counts while the row still carries the stream's own connection. */
  function DisconnectEffect(s: Tables, record: Record, connection: string): Tables {
    if Holds(s, record.id, connection)
    then SetServerStatus(MarkRow(s, record.id, GoneOffline()), record.server, record.workspace, Offline)
    else s
  }

  /** What a test of the connection finds; `recent` says whether a time of last contact would be recent enough. */
  function Found(s: Tables, server: string, recent: bool): Status {
    if server !in s.agents || s.agents[server].revoked then Pending
    else if s.agents[server].seen && recent then Connected
    else Offline
  }

  function TestEffect(s: Tables, server: string, recent: bool): Tables
    requires server in s.servers
  {
    s.(servers := s.servers[server := s.servers[server].(status := Found(s, server, recent))])
  }

  ghost predicate Consistent(s: Tables) {
    forall a, b :: a in s.agents && b in s.agents && s.agents[a].id == s.agents[b].id ==> a == b
  }

  /** The record's server shows this status if it is there in the record's workspace; no other row changes. */
  predicate StatusSet(before: map<string, Server>, after: map<string, Server>, record: Record, status: Status) {
    && after.Keys == before.Keys
    && forall server :: server in before ==>
         after[server] == if server == record.server && before[server].workspace == record.workspace
                          then before[server].(status := status)
                          else before[server]
  }

  class Store {
    var tokens: map<string, Token>
    var agents: map<string, Agent>
    var servers: map<string, Server>

    function State(): Tables
      reads this
    {
      Tables(tokens, agents, servers)
    }

    method Assign(s: Tables)
      modifies this
      ensures State() == s
    {
      tokens, agents, servers := s.tokens, s.agents, s.servers;
    }

    /** Consume the token, replace the server's identity, and reset its status, or change nothing. */
    method RegisterAgent(hash: string, workspace: string, server: string, registration: Registration, now: int)
      returns (r: Result<(), StoreError>)
      modifies this
      ensures r == Err(TokenInvalid) <==> !Consumable(old(State()), hash, workspace, server, now)
      ensures r == Err(TokenInvalid)
        <==> hash !in old(tokens)
             || var token := old(tokens)[hash];
                token.used || token.revoked || now >= token.expiresAt
                || token.workspace != workspace || token.server != server
      // A server that is gone refuses, and so does an identifier that another server's identity has.
      ensures r == Err(Conflict)
        <==> r != Err(TokenInvalid)
             && (server !in old(servers)
                 || exists other :: other in old(agents) && other != server
                      && (old(agents)[other].id == registration.id
                          || old(agents)[other].instance == registration.instance))
      ensures r == Err(Conflict)
        <==> Consumable(old(State()), hash, workspace, server, now) && Conflicts(old(State()), server, registration)
      ensures r.Err? ==> r.error != Unauthorized && State() == old(State())
      ensures r.Ok? ==> State() == Registered(old(State()), hash, workspace, server, registration)
      // The token is spent, the row is the registration's, unconnected and unseen, and the server waits for it.
      ensures r.Ok? ==> tokens == old(tokens)[hash := old(tokens)[hash].(used := true)] && tokens[hash].used
      ensures r.Ok? ==>
                && agents.Keys == old(agents).Keys + {server}
                && (forall other :: other in old(agents) && other != server ==> agents[other] == old(agents)[other])
                && var a := agents[server];
                   && a.id == registration.id && a.instance == registration.instance
                   && a.serial == registration.serial && a.expiresAt == registration.expiresAt
                   && a.status == Paired && !a.revoked && a.connection.None? && !a.seen
                   && a.workspace == if server in old(agents) then old(agents)[server].workspace else workspace
      ensures r.Ok? ==>
                && servers.Keys == old(servers).Keys
                && (forall other :: other in servers && other != server ==> servers[other] == old(servers)[other])
                && servers[server].status == (if old(servers)[server].workspace == workspace then Pending
                                              else old(servers)[server].status)
    {
      if !Consumable(State(), hash, workspace, server, now) {
        return Err(TokenInvalid);
      }
      if Conflicts(State(), server, registration) {
        return Err(Conflict);
      }
      tokens := tokens[hash := tokens[hash].(used := true)];
      var agent := Agent(registration.id, workspace, registration.instance, registration.serial,
                         registration.expiresAt, Paired, false, None, false);
      if server in agents {
        agent := agent.(workspace := agents[server].workspace);
      }
      agents := agents[server := agent];
      if servers[server].workspace == workspace {
        servers := servers[server := servers[server].(status := Pending)];
      }
      r := Ok(());
    }

    method AgentByID(id: string, serial: string, now: int, subscribed: bool) returns (r: Result<Record, StoreError>)
      requires Consistent(State())
      ensures r.Ok? <==> subscribed && exists server :: Authorises(State(), server, id, serial, now)
      ensures r.Ok?
        <==> subscribed
             && exists server :: server in agents && agents[server].id == id
                  && SameUpToCase(agents[server].serial, serial) && now <= agents[server].expiresAt
                  && !agents[server].revoked && agents[server].status != Revoked
      ensures r.Ok? ==> r.value.id == id && Authorises(State(), r.value.server, id, serial, now)
                        && r.value.workspace == agents[r.value.server].workspace
      ensures r.Err? ==> r.error == Unauthorized
    {
      var rows := set server | server in agents && agents[server].id == id;
      if !subscribed || rows == {} {
        assert forall server :: RowOf(State(), server, id) ==> server in rows;
        assert forall server :: server in agents && agents[server].id == id ==> server in rows;
        return Err(Unauthorized);
      }
      var server :| server in rows;
      assert forall other :: RowOf(State(), other, id) ==> other == server;
      var a := agents[server];
      FoldsAlikeExactly(a.serial, serial);
      assert forall other :: other in agents && agents[other].id == id ==> other == server;
      hide Fold, SameUpToCase;
      if a.revoked || Fold(a.serial) != Fold(serial) || now > a.expiresAt || a.status == Revoked {
        return Err(Unauthorized);
      }
      assert Authorises(State(), server, id, serial, now);
      r := Ok(Record(id, a.workspace, server));
    }

    method RotateAgentCertificate(id: string, oldSerial: string, newSerial: string, expiresAt: int, now: int,
                                  subscribed: bool)
      returns (r: Result<Record, StoreError>)
      requires Consistent(State())
      modifies this
      // The update itself compares the old serial exactly.
      ensures r.Ok? <==> subscribed && exists server :: Authorises(old(State()), server, id, oldSerial, now)
                                                        && old(agents)[server].serial == oldSerial
      ensures r.Err? ==> r.error == Unauthorized
      ensures State() == if r.Ok? then MarkRow(old(State()), id, WithSerial(newSerial, expiresAt)) else old(State())
      ensures tokens == old(tokens) && servers == old(servers) && agents.Keys == old(agents).Keys
      ensures forall server :: server in agents ==>
                agents[server] == if r.Ok? && old(agents)[server].id == id
                                  then old(agents)[server].(serial := newSerial, expiresAt := expiresAt)
                                  else old(agents)[server]
    {
      r := AgentByID(id, oldSerial, now, subscribed);
      if r.Ok? {
        if agents[r.value.server].serial != oldSerial {
          return Err(Unauthorized);
        }
        Assign(MarkRow(State(), id, WithSerial(newSerial, expiresAt)));
      }
    }

    method MarkConnected(record: Record, connection: string)
      modifies this
      ensures State() == ConnectEffect(old(State()), record, connection)
      // The agent's row, if it is still there, now carries this connection; who is paired with what does not change.
      ensures forall server :: RowOf(old(State()), server, record.id) ==> Holds(State(), record.id, connection)
      ensures forall server :: server in old(agents) && !RowOf(old(State()), server, record.id) ==>
                server in agents && agents[server] == old(agents)[server]
      ensures forall server :: server in old(agents) && old(agents)[server].id == record.id ==>
                agents[server]
                == old(agents)[server].(connection := Some(connection), status := Connected, seen := true)
      ensures SameIdentities(old(State()), State())
      ensures StatusSet(old(servers), servers, record, Connected)
    {
      ConnectKeepsRows(State(), record, connection);
      ConnectHolds(State(), record, connection);
      Assign(MarkRow(State(), record.id, ConnectedAs(connection)));
      Assign(SetServerStatus(State(), record.server, record.workspace, Connected));
    }

    method SaveHeartbeat(record: Record)
      modifies this
      ensures State() == AliveEffect(old(State()), record)
      // No connection is taken or given up, and nobody's identity changes.
      ensures SameIdentities(old(State()), State()) && SameConnections(old(State()), State())
      ensures forall server :: server in agents ==>
                agents[server] == if old(agents)[server].id == record.id
                                  then old(agents)[server].(status := Connected, seen := true)
                                  else old(agents)[server]
      ensures StatusSet(old(servers), servers, record, Connected)
    {
      AliveKeepsRows(State(), record);
      Assign(MarkRow(State(), record.id, SeenAlive()));
      Assign(SetServerStatus(State(), record.server, record.workspace, Connected));
    }

    method MarkDisconnected(record: Record, connection: string)
      modifies this
      ensures State() == DisconnectEffect(old(State()), record, connection)
      // Afterwards the connection is not held; if it was not held before, nothing has changed at all.
      ensures !Holds(State(), record.id, connection)
      ensures !Holds(old(State()), record.id, connection) ==> State() == old(State())
      ensures SameIdentities(old(State()), State())
      // Unless a row carries it that is not revoked, nothing happens; else row and server are set offline.
      ensures (!exists server :: server in old(agents) && old(agents)[server].id == record.id
                 && old(agents)[server].connection == Some(connection) && old(agents)[server].status != Revoked) ==>
                State() == old(State())
      ensures (exists server :: server in old(agents) && old(agents)[server].id == record.id
                 && old(agents)[server].connection == Some(connection) && old(agents)[server].status != Revoked) ==>
                && (forall server :: server in agents ==>
                      agents[server] == if old(agents)[server].id == record.id
                                        then old(agents)[server].(status := Offline, connection := None)
                                        else old(agents)[server])
                && StatusSet(old(servers), servers, record, Offline)
    {
      DisconnectKeepsRows(State(), record, connection);
      if Holds(State(), record.id, connection) {
        Assign(MarkRow(State(), record.id, GoneOffline()));
        Assign(SetServerStatus(State(), record.server, record.workspace, Offline));
      }
    }
  }

  // ----- Runs -----

  /** An open stream: its record, and whether it has run MarkConnected. */
  datatype Stream = Stream(record: Record, connected: bool)

  datatype State = State(
    tables: Tables,
    streams: map<string, Stream>,          // open streams by connection identifier
    // history
    hashes: set<string>,                   // token hashes ever issued
    registrations: map<string, string>,    // agent registered by each token
    ids: set<string>, serials: set<string>, connections: set<string>,  // identifiers used, serials folded
    superseded: set<(string, string)>,     // (agent, folded serial) pairs that were replaced
    last: map<string, string>)             // the stream that last ran MarkConnected, by agent

  datatype Step =
    | AddServer(server: string, row: Server)
    | RemoveServer(server: string)
    | IssueToken(hash: string, token: Token)
    | Register(hash: string, workspace: string, server: string, registration: Registration, now: int)
    | Rotate(server: string, id: string, oldSerial: string, newSerial: string, expiresAt: int, now: int)
    | Authorize(connection: string, server: string, id: string, serial: string, now: int)
    | Connect(connection: string)
    | Alive(connection: string)
    | Close(connection: string)
    | Sweep(servers: set<string>)
    | Test(server: string, recent: bool)
    | PurgeTokens(gone: set<string>)

  predicate Enabled(s: State, step: Step) {
    match step
    case AddServer(server, row) =>
      server !in s.tables.servers && server !in s.tables.agents && row.status == Pending
    case RemoveServer(_) => true
    case IssueToken(hash, token) =>
      && hash !in s.hashes && !token.used && !token.revoked
      && token.server in s.tables.servers && s.tables.servers[token.server].agentMode
      && token.workspace == s.tables.servers[token.server].workspace
    case Register(hash, workspace, server, r, now) =>
      && Consumable(s.tables, hash, workspace, server, now) && !Conflicts(s.tables, server, r)
      && r.id !in s.ids && Fold(r.serial) !in s.serials
    case Rotate(server, id, oldSerial, newSerial, _, now) =>
      && Authorises(s.tables, server, id, oldSerial, now) && s.tables.agents[server].serial == oldSerial
      && Fold(newSerial) !in s.serials
    case Authorize(connection, server, id, serial, now) =>
      connection !in s.connections && Authorises(s.tables, server, id, serial, now)
    case Connect(connection) => connection in s.streams
    case Alive(connection) => connection in s.streams && s.streams[connection].connected
    case Close(connection) => connection in s.streams
    case Sweep(_) => true
    case Test(server, _) => server in s.tables.servers && s.tables.servers[server].agentMode
    case PurgeTokens(_) => true
  }

  function IssueEffect(s: Tables, hash: string, token: Token): Tables {
    var revoked := map h | h in s.tokens ::
                     if s.tokens[h].server == token.server && !s.tokens[h].used
                     then s.tokens[h].(revoked := true)
                     else s.tokens[h];
    s.(tokens := revoked[hash := token])
  }

  /** Identities unseen for a while, and the servers of identities that are offline, are set offline. */
  function SweepEffect(s: Tables, servers: set<string>): Tables {
    var agents := map server | server in s.agents ::
                    if server in servers && s.agents[server].status == Connected
                    then s.agents[server].(status := Offline)
                    else s.agents[server];
    var swept := map server | server in s.servers ::
                   if server in agents && agents[server].status == Offline && s.servers[server].status == Connected
                   then s.servers[server].(status := Offline) else s.servers[server];
    s.(agents := agents, servers := swept)
  }

  /** A server's tokens and identity go with it. */
  function RemoveEffect(s: Tables, server: string): Tables {
    Tables(map hash | hash in s.tokens && s.tokens[hash].server != server :: s.tokens[hash],
           s.agents - {server}, s.servers - {server})
  }

  function Pair(s: Tables, server: string): set<(string, string)> {
    if server in s.agents then {(s.agents[server].id, Fold(s.agents[server].serial))} else {}
  }

  function Apply(s: State, step: Step): State
    requires Enabled(s, step)
  {
    match step
    case AddServer(server, row) => s.(tables := s.tables.(servers := s.tables.servers[server := row]))
    case RemoveServer(server) =>
      s.(tables := RemoveEffect(s.tables, server),
         superseded := s.superseded + Pair(s.tables, server))
    case IssueToken(hash, token) => s.(tables := IssueEffect(s.tables, hash, token), hashes := s.hashes + {hash})
    case Register(hash, workspace, server, r, _) =>
      s.(tables := Registered(s.tables, hash, workspace, server, r),
         registrations := s.registrations[hash := r.id],
         ids := s.ids + {r.id}, serials := s.serials + {Fold(r.serial)},
         superseded := s.superseded + Pair(s.tables, server))
    case Rotate(server, id, _, newSerial, expiresAt, _) =>
      s.(tables := MarkRow(s.tables, id, WithSerial(newSerial, expiresAt)),
         serials := s.serials + {Fold(newSerial)},
         superseded := s.superseded + Pair(s.tables, server))
    case Authorize(connection, server, id, _, _) =>
      s.(streams := s.streams[connection := Stream(Record(id, s.tables.agents[server].workspace, server), false)],
         connections := s.connections + {connection})
    case Connect(connection) =>
      var stream := s.streams[connection];
      s.(tables := ConnectEffect(s.tables, stream.record, connection),
         streams := s.streams[connection := stream.(connected := true)],
         last := s.last[stream.record.id := connection])
    case Alive(connection) => s.(tables := AliveEffect(s.tables, s.streams[connection].record))
    case Close(connection) =>
      var stream := s.streams[connection];
      s.(tables := if stream.connected then DisconnectEffect(s.tables, stream.record, connection) else s.tables,
         streams := s.streams - {connection})
    case Sweep(servers) => s.(tables := SweepEffect(s.tables, servers))
    case Test(server, recent) => s.(tables := TestEffect(s.tables, server, recent))
    case PurgeTokens(gone) => s.(tables := s.tables.(tokens := s.tables.tokens - gone))
  }

  predicate Init(s: State) {
    && s.tables == Tables(map[], map[], map[]) && s.streams == map[]
    && s.hashes == {} && s.registrations == map[] && s.ids == {} && s.serials == {} && s.connections == {}
    && s.superseded == {} && s.last == map[]
  }

  // ----- The invariant -----

  ghost predicate TokensOk(s: State) {
    && s.tables.tokens.Keys <= s.hashes
    && s.registrations.Keys <= s.hashes
    && (forall hash :: hash in s.registrations && hash in s.tables.tokens ==> s.tables.tokens[hash].used)
  }

  /** The row's pair is recorded as issued and not as superseded. */
  predicate PairOk(s: State, a: Agent) {
    a.id in s.ids && Fold(a.serial) in s.serials && (a.id, Fold(a.serial)) !in s.superseded
  }

  ghost predicate IdentitiesOk(s: State) {
    && Consistent(s.tables)
    && (forall server :: server in s.tables.agents ==> PairOk(s, s.tables.agents[server]))
    && (forall p :: p in s.superseded ==> p.0 in s.ids && p.1 in s.serials)
    && (forall id :: id in s.last ==> id in s.ids)
    && (forall c :: c in s.streams ==> s.streams[c].record.id in s.ids)
  }

  /** The stream that connected last for this agent is still open. */
  predicate LatestOpen(s: State, id: string) {
    id in s.last && s.last[id] in s.streams
  }

  /** A row's connection is the stream that connected last, exactly while that stream is open. */
  ghost predicate LeaseOk(s: State, a: Agent) {
    a.status != Revoked && a.connection == if LatestOpen(s, a.id) then Some(s.last[a.id]) else None
  }

  ghost predicate LeasesOk(s: State) {
    && s.streams.Keys <= s.connections
    && (forall id :: id in s.last ==> s.last[id] in s.connections)
    && (forall id :: LatestOpen(s, id) ==> s.streams[s.last[id]].record.id == id && s.streams[s.last[id]].connected)
    && (forall c :: c in s.streams && s.streams[c].connected ==> s.streams[c].record.id in s.last)
    && (forall server :: server in s.tables.agents ==> LeaseOk(s, s.tables.agents[server]))
  }

  ghost predicate Inv(s: State) {
    TokensOk(s) && IdentitiesOk(s) && LeasesOk(s)
  }

  lemma {:induction false} StepKeepsTokens(s: State, step: Step)
    requires TokensOk(s) && Enabled(s, step)
    ensures TokensOk(Apply(s, step))
  {
  }

  /** The same identities, row by row. */
  ghost predicate SameIdentities(t: Tables, t': Tables) {
    && t'.agents.Keys == t.agents.Keys
    && forall server :: server in t.agents ==>
         t'.agents[server].id == t.agents[server].id && t'.agents[server].serial == t.agents[server].serial
  }

  /** The same rows hold the same connections for the same agents. */
  ghost predicate SameConnections(t: Tables, t': Tables) {
    && t'.agents.Keys <= t.agents.Keys
    && forall server :: server in t'.agents ==>
         t'.agents[server].id == t.agents[server].id && t'.agents[server].connection == t.agents[server].connection
         && (t'.agents[server].status == Revoked ==> t.agents[server].status == Revoked)
  }

  lemma {:induction false} CarryIdentities(s: State, s': State)
    requires IdentitiesOk(s) && SameIdentities(s.tables, s'.tables)
    requires s'.ids == s.ids && s'.serials == s.serials && s'.superseded == s.superseded
    requires forall id :: id in s'.last ==> id in s.ids
    requires forall c :: c in s'.streams ==> s'.streams[c].record.id in s.ids
    ensures IdentitiesOk(s')
  {
  }

  lemma {:induction false} RegisterRows(s: Tables, hash: string, workspace: string, server: string, r: Registration)
    requires hash in s.tokens
    ensures var s' := Registered(s, hash, workspace, server, r);
            && s'.agents.Keys == s.agents.Keys + {server}
            && s'.agents[server].id == r.id && s'.agents[server].serial == r.serial
            && s'.agents[server].connection == None
            && forall other :: other in s.agents && other != server ==> s'.agents[other] == s.agents[other]
  {
  }

  /** One identity is new or replaced by a pair never used before. */
  lemma {:induction false} FreshPairIsApart(s: State, server: string, other: string, id: string, serial: string)
    requires IdentitiesOk(s) && other in s.tables.agents && other != server && id !in s.ids && serial !in s.serials
    ensures var a := s.tables.agents[other];
            PairOk(s, a) && a.id != id && (a.id, Fold(a.serial)) !in Pair(s.tables, server)
  {
    hide Fold;
  }

  lemma {:induction false} FreshPairKeepsIdentities(s: State, s': State, server: string)
    requires IdentitiesOk(s) && s'.tables.agents.Keys == s.tables.agents.Keys + {server}
    requires forall other :: other in s.tables.agents && other != server ==>
               s'.tables.agents[other] == s.tables.agents[other]
    requires var a := s'.tables.agents[server];
             && a.id !in s.ids && Fold(a.serial) !in s.serials
             && s'.ids == s.ids + {a.id} && s'.serials == s.serials + {Fold(a.serial)}
    requires s'.superseded == s.superseded + Pair(s.tables, server) && s'.last == s.last && s'.streams == s.streams
    ensures IdentitiesOk(s')
  {
    var a := s'.tables.agents[server];
    assert forall p :: p in Pair(s.tables, server) ==> p.0 in s.ids && p.1 in s.serials;
    assert PairOk(s', a);
    forall other | other in s.tables.agents && other != server
      ensures PairOk(s', s.tables.agents[other]) && s.tables.agents[other].id != a.id
    {
      FreshPairIsApart(s, server, other, a.id, Fold(a.serial));
    }
    hide Fold, Pair, PairOk;
  }

  lemma {:induction false} RegisterKeepsIdentities(s: State, step: Step)
    requires IdentitiesOk(s) && step.Register? && Enabled(s, step)
    ensures IdentitiesOk(Apply(s, step))
  {
    hide Fold, Pair, IdentitiesOk;
    RegisterRows(s.tables, step.hash, step.workspace, step.server, step.registration);
    hide Registered, Conflicts, TokenUsable;
    FreshPairKeepsIdentities(s, Apply(s, step), step.server);
  }

  lemma {:induction false} RotateKeepsIdentities(s: State, step: Step)
    requires IdentitiesOk(s) && step.Rotate? && Enabled(s, step)
    ensures IdentitiesOk(Apply(s, step))
  {
    var s' := Apply(s, step);
    forall other | other in s'.tables.agents
      ensures s'.tables.agents[other].id == s.tables.agents[other].id
      ensures s'.tables.agents[other].serial == if other == step.server then step.newSerial
                else s.tables.agents[other].serial
    {
    }
  }

  lemma {:induction false} RemoveKeepsIdentities(s: State, server: string)
    requires IdentitiesOk(s)
    ensures IdentitiesOk(Apply(s, RemoveServer(server)))
  {
    var s' := Apply(s, RemoveServer(server));
    forall other | other in s'.tables.agents
      ensures other != server && s'.tables.agents[other] == s.tables.agents[other]
    {
    }
  }

  lemma {:induction false} StepKeepsIdentities(s: State, step: Step)
    requires IdentitiesOk(s) && Enabled(s, step)
    ensures IdentitiesOk(Apply(s, step))
  {
    match step
    case Register(_, _, _, _, _) => RegisterKeepsIdentities(s, step);
    case Rotate(_, _, _, _, _, _) => RotateKeepsIdentities(s, step);
    case RemoveServer(server) => RemoveKeepsIdentities(s, server);
    case _ =>
      QuietStep(s, step);
      hide IdentitiesOk, SameIdentities;
      CarryIdentities(s, Apply(s, step));
  }

  lemma {:induction false} ConnectKeepsRows(t: Tables, record: Record, connection: string)
    ensures SameIdentities(t, ConnectEffect(t, record, connection))
  {
  }

  lemma {:induction false} ConnectHolds(t: Tables, record: Record, connection: string)
    ensures var t' := ConnectEffect(t, record, connection);
            forall server :: RowOf(t, server, record.id) ==> Holds(t', record.id, connection)
  {
    var t' := ConnectEffect(t, record, connection);
    forall server | RowOf(t, server, record.id) ensures Holds(t', record.id, connection) {
      assert RowOf(t', server, record.id) && t'.agents[server].connection == Some(connection);
    }
  }

  lemma {:induction false} AliveKeepsRows(t: Tables, record: Record)
    ensures SameIdentities(t, AliveEffect(t, record)) && SameConnections(t, AliveEffect(t, record))
  {
  }

  lemma {:induction false} DisconnectKeepsRows(t: Tables, record: Record, connection: string)
    ensures SameIdentities(t, DisconnectEffect(t, record, connection))
  {
  }

  lemma {:induction false} SweepKeepsRows(t: Tables, servers: set<string>)
    ensures SameIdentities(t, SweepEffect(t, servers)) && SameConnections(t, SweepEffect(t, servers))
  {
  }

  lemma {:induction false} RotateKeepsRows(t: Tables, id: string, serial: string, expiresAt: int)
    ensures SameConnections(t, MarkRow(t, id, WithSerial(serial, expiresAt)))
  {
  }

  lemma {:induction false} QuietStep(s: State, step: Step)
    requires IdentitiesOk(s) && Enabled(s, step) && !step.Register? && !step.Rotate? && !step.RemoveServer?
    ensures var s' := Apply(s, step);
            && SameIdentities(s.tables, s'.tables)
            && s'.ids == s.ids && s'.serials == s.serials && s'.superseded == s.superseded
            && (forall id :: id in s'.last ==> id in s.ids)
            && (forall c :: c in s'.streams ==> s'.streams[c].record.id in s.ids)
  {
    hide ConnectEffect, AliveEffect, DisconnectEffect, SweepEffect, Consistent;
    match step
    case Connect(c) => ConnectKeepsRows(s.tables, s.streams[c].record, c);
    case Alive(c) => AliveKeepsRows(s.tables, s.streams[c].record);
    case Close(c) => DisconnectKeepsRows(s.tables, s.streams[c].record, c);
    case Sweep(servers) => SweepKeepsRows(s.tables, servers);
    case _ =>
  }

  // ----- Leases -----

  /** A step that changes no row's connection, opens or closes nothing, and connects nobody. */
  lemma {:induction false} CarryLeases(s: State, s': State)
    requires LeasesOk(s)
    requires s'.last == s.last && s'.connections == s.connections && s'.streams == s.streams
    requires SameConnections(s.tables, s'.tables)
    ensures LeasesOk(s')
  {
    forall server | server in s'.tables.agents ensures LeaseOk(s', s'.tables.agents[server]) {
      assert LeaseOk(s, s.tables.agents[server]);
    }
  }

  lemma {:induction false} RegisterKeepsLeases(s: State, step: Step)
    requires IdentitiesOk(s) && LeasesOk(s) && step.Register? && Enabled(s, step)
    ensures LeasesOk(Apply(s, step))
  {
    RegisterRows(s.tables, step.hash, step.workspace, step.server, step.registration);
    hide Registered, Conflicts;
    var s' := Apply(s, step);
    forall server | server in s'.tables.agents ensures LeaseOk(s', s'.tables.agents[server]) {
      if server != step.server {
        assert s'.tables.agents[server] == s.tables.agents[server];
        assert LeaseOk(s, s.tables.agents[server]);
      }
    }
  }

  lemma {:induction false} AuthorizeKeepsLeases(s: State, step: Step)
    requires LeasesOk(s) && step.Authorize? && Enabled(s, step)
    ensures LeasesOk(Apply(s, step))
  {
    var s' := Apply(s, step);
    forall server | server in s'.tables.agents ensures LeaseOk(s', s'.tables.agents[server]) {
      assert LeaseOk(s, s.tables.agents[server]);
    }
  }

  lemma {:induction false} ConnectKeepsLeases(s: State, step: Step)
    requires LeasesOk(s) && step.Connect? && Enabled(s, step)
    ensures LeasesOk(Apply(s, step))
  {
    var s' := Apply(s, step);
    var id := s.streams[step.connection].record.id;
    forall server | server in s'.tables.agents ensures LeaseOk(s', s'.tables.agents[server]) {
      assert LeaseOk(s, s.tables.agents[server]);
      assert s'.tables.agents[server] == if s.tables.agents[server].id == id
                                         then ConnectedAs(step.connection)(s.tables.agents[server])
                                         else s.tables.agents[server];
    }
  }

  lemma {:induction false} CloseKeepsLeases(s: State, step: Step)
    requires LeasesOk(s) && step.Close? && Enabled(s, step)
    ensures LeasesOk(Apply(s, step))
  {
    var s' := Apply(s, step);
    var stream := s.streams[step.connection];
    forall server | server in s'.tables.agents ensures LeaseOk(s', s'.tables.agents[server]) {
      assert LeaseOk(s, s.tables.agents[server]);
      if s'.tables.agents[server] != s.tables.agents[server] {
        CloseIsCurrent(s, step.connection);
      }
    }
  }

  /** Only the stream that connected last can still hold the row's connection. */
  lemma {:induction false} CloseIsCurrent(s: State, connection: string)
    requires LeasesOk(s) && connection in s.streams && Holds(s.tables, s.streams[connection].record.id, connection)
    ensures s.streams[connection].record.id in s.last && s.last[s.streams[connection].record.id] == connection
  {
    var id := s.streams[connection].record.id;
    var server :| server in s.tables.agents && RowOf(s.tables, server, id) &&
          s.tables.agents[server].connection == Some(connection);
    assert LeaseOk(s, s.tables.agents[server]);
  }

  lemma {:induction false} QuietLeaseStep(s: State, step: Step)
    requires Enabled(s, step) && !step.Register? && !step.Authorize? && !step.Connect? && !step.Close?
    ensures var s' := Apply(s, step);
            && SameConnections(s.tables, s'.tables)
            && s'.last == s.last && s'.connections == s.connections && s'.streams == s.streams
  {
    hide AliveEffect, SweepEffect, MarkRow;
    match step
    case Alive(c) => AliveKeepsRows(s.tables, s.streams[c].record);
    case Sweep(servers) => SweepKeepsRows(s.tables, servers);
    case Rotate(_, id, _, newSerial, expiresAt, _) => RotateKeepsRows(s.tables, id, newSerial, expiresAt);
    case _ =>
  }

  lemma {:induction false} StepKeepsLeases(s: State, step: Step)
    requires IdentitiesOk(s) && LeasesOk(s) && Enabled(s, step)
    ensures LeasesOk(Apply(s, step))
  {
    match step
    case Register(_, _, _, _, _) => RegisterKeepsLeases(s, step);
    case Authorize(_, _, _, _, _) => AuthorizeKeepsLeases(s, step);
    case Connect(_) => ConnectKeepsLeases(s, step);
    case Close(_) => CloseKeepsLeases(s, step);
    case _ =>
      QuietLeaseStep(s, step);
      hide LeasesOk, SameConnections;
      CarryLeases(s, Apply(s, step));
  }

  lemma {:induction false} StepKeepsInv(s: State, step: Step)
    requires Inv(s) && Enabled(s, step)
    ensures Inv(Apply(s, step))
  {
    StepKeepsTokens(s, step);
    StepKeepsIdentities(s, step);
    StepKeepsLeases(s, step);
  }

  ghost predicate Run(states: seq<State>, steps: seq<Step>) {
    && |states| == |steps| + 1
    && Init(states[0])
    && forall i :: 0 <= i < |steps| ==> Enabled(states[i], steps[i]) && states[i + 1] == Apply(states[i], steps[i])
  }

  lemma {:induction false} RunInv(states: seq<State>, steps: seq<Step>, i: nat)
    requires Run(states, steps) && i < |states|
    ensures Inv(states[i])
  {
    if i > 0 {
      RunInv(states, steps, i - 1);
      assert Enabled(states[i - 1], steps[i - 1]);
      StepKeepsInv(states[i - 1], steps[i - 1]);
    }
  }

  // ----- Theorems -----

  /** A pairing token registers at most one agent: one that already has cannot be consumed again. */
  lemma {:induction false} TokenRegistersOnce(states: seq<State>, steps: seq<Step>, i: nat)
    requires Run(states, steps) && i < |steps| && steps[i].Register?
    ensures steps[i].hash !in states[i].registrations
  {
    RunInv(states, steps, i);
    assert Enabled(states[i], steps[i]);
  }

  /** A server has at most one pair that may connect, and one pair belongs to at most one server. */
  lemma {:induction false} OnePairPerServer(s: State, server: string, server': string, id: string, serial: string,
                                            id': string, serial': string, now: int)
    requires Inv(s)
    requires Authorises(s.tables, server, id, serial, now) && Authorises(s.tables, server', id', serial', now)
    ensures server == server' ==> id == id' && Fold(serial) == Fold(serial')
    ensures id == id' ==> server == server' && Fold(serial) == Fold(serial')
  {
  }

  lemma {:induction false} SupersededGrows(states: seq<State>, steps: seq<Step>, i: nat, j: nat)
    requires Run(states, steps) && i <= j < |states|
    ensures states[i].superseded <= states[j].superseded
    decreases j - i
  {
    if i < j {
      assert Enabled(states[i], steps[i]);
      SupersededGrows(states, steps, i + 1, j);
    }
  }

  /** A current pair either keeps its row or is recorded as superseded by the step. */
  lemma {:induction false} KeptOrSuperseded(s: State, step: Step, server: string)
    requires Inv(s) && Enabled(s, step) && server in s.tables.agents
    ensures var a, s' := s.tables.agents[server], Apply(s, step);
            || (server in s'.tables.agents && s'.tables.agents[server].id == a.id &&
                s'.tables.agents[server].serial == a.serial)
            || (a.id, Fold(a.serial)) in s'.superseded
  {
    hide Fold, TokensOk, LeasesOk, Conflicts, TokenUsable;
    match step
    case Register(_, _, _, _, _) =>
    case RemoveServer(_) =>
    case Rotate(_, _, _, _, _, _) =>
    case _ =>
      QuietStep(s, step);
  }

  /** A superseded pair never authorises again, at any time, on any server. */
  lemma {:induction false} SupersededNeverAuthorises(states: seq<State>, steps: seq<Step>, i: nat, j: nat,
                                                     id: string, serial: string, server: string, now: int)
    requires Run(states, steps) && i <= j < |states| && (id, Fold(serial)) in states[i].superseded
    ensures !Authorises(states[j].tables, server, id, serial, now)
  {
    SupersededGrows(states, steps, i, j);
    RunInv(states, steps, j);
  }

  /** Wherever the agent is an identity, its certificate expires at this time. */
  predicate ExpiresAt(t: Tables, id: string, time: int) {
    forall server :: server in t.agents && t.agents[server].id == id ==> t.agents[server].expiresAt == time
  }

  lemma {:induction false} StepKeepsExpiry(s: State, step: Step, id: string, time: int)
    requires IdentitiesOk(s) && Enabled(s, step) && id in s.ids && ExpiresAt(s.tables, id, time)
    requires step.Rotate? ==> step.id != id
    ensures id in Apply(s, step).ids && ExpiresAt(Apply(s, step).tables, id, time)
  {
    hide Fold, Conflicts, TokenUsable, Consistent, PairOk, Authorises, Holds;
    match step
    case Register(hash, workspace, server, r, _) =>
      RegisterRows(s.tables, hash, workspace, server, r);
      hide Registered;
    case _ =>
  }

  /**
   * Once the certificate of an agent has expired, the agent is refused under every serial and on every server until a
   * rotation gives it another one. A new pairing gives the server another agent and does not bring this one back.
   */
  lemma {:induction false} ExpiredNeverAuthorises(states: seq<State>, steps: seq<Step>, i: nat, j: nat, server: string,
                                                  id: string, now: int)
    requires Run(states, steps) && i <= j < |states| && RowOf(states[i].tables, server, id)
    requires states[i].tables.agents[server].expiresAt < now
    requires forall k :: i <= k < j && steps[k].Rotate? ==> steps[k].id != id
    ensures forall other, serial :: !Authorises(states[j].tables, other, id, serial, now)
  {
    RunInv(states, steps, i);
    ExpiryStays(states, steps, i, j, id, states[i].tables.agents[server].expiresAt);
  }

  lemma {:induction false} ExpiryStays(states: seq<State>, steps: seq<Step>, i: nat, j: nat, id: string, time: int)
    requires Run(states, steps) && i <= j < |states| && id in states[i].ids && ExpiresAt(states[i].tables, id, time)
    requires forall k :: i <= k < j && steps[k].Rotate? ==> steps[k].id != id
    ensures ExpiresAt(states[j].tables, id, time)
    decreases j - i
  {
    hide ExpiresAt, Enabled, Apply, Inv;
    if i < j {
      RunInv(states, steps, i);
      assert Enabled(states[i], steps[i]);
      assert IdentitiesOk(states[i]) by { InvIdentities(states[i]); }
      StepKeepsExpiry(states[i], steps[i], id, time);
      ExpiryStays(states, steps, i + 1, j, id, time);
    }
  }

  lemma {:induction false} InvIdentities(s: State)
    requires Inv(s)
    ensures IdentitiesOk(s)
  {
  }

  /** While the stream that last ran MarkConnected is open, the row carries its connection. */
  lemma {:induction false} LeaseHeldByLatest(states: seq<State>, steps: seq<Step>, i: nat, server: string)
    requires Run(states, steps) && i < |states| && server in states[i].tables.agents
    requires var id := states[i].tables.agents[server].id;
             id in states[i].last && states[i].last[id] in states[i].streams
    ensures var a := states[i].tables.agents[server]; a.connection == Some(states[i].last[a.id])
  {
    RunInv(states, steps, i);
    assert LeaseOk(states[i], states[i].tables.agents[server]);
  }

  /** The late disconnect of a stream that another has superseded changes no identity and no server. */
  lemma {:induction false} SupersededCloseIsHarmless(states: seq<State>, steps: seq<Step>, i: nat)
    requires Run(states, steps) && i < |steps| && steps[i].Close?
    requires var id := states[i].streams[steps[i].connection].record.id;
             && steps[i].connection in states[i].streams
             && (id in states[i].last ==> states[i].last[id] != steps[i].connection)
    ensures states[i + 1].tables == states[i].tables
  {
    RunInv(states, steps, i);
    assert Enabled(states[i], steps[i]);
    if Holds(states[i].tables, states[i].streams[steps[i].connection].record.id, steps[i].connection) {
      CloseIsCurrent(states[i], steps[i].connection);
    }
  }
}
