/** The status of a server against the lease on its identity: when a server shows as connected although no connection
    holds it. */
module AgentTableStatus {
  import opened Wrappers
  import opened AgentTables

  // ----- Workspaces -----

  /** A stream's agent, while it is an identity, is that of the stream's server and workspace. */
  ghost predicate RecordOk(t: Tables, record: Record) {
    forall server :: RowOf(t, server, record.id) ==>
      record.server == server && record.workspace == t.agents[server].workspace
  }

  /** Tokens and identities belong to the workspace of their server. */
  ghost predicate WorkspacesOk(s: State) {
    && (forall h :: h in s.tables.tokens ==>
          var token := s.tables.tokens[h];
          token.server in s.tables.servers && s.tables.servers[token.server].workspace == token.workspace)
    && (forall server :: server in s.tables.agents ==>
          server in s.tables.servers && s.tables.servers[server].workspace == s.tables.agents[server].workspace)
    && (forall c :: c in s.streams ==> RecordOk(s.tables, s.streams[c].record))
  }

  /** The same identities in the same workspaces, and servers in theirs. */
  ghost predicate SameWorkspaces(t: Tables, t': Tables) {
    && t'.tokens == t.tokens && t'.servers.Keys == t.servers.Keys && t'.agents.Keys == t.agents.Keys
    && (forall server :: server in t.servers ==> t'.servers[server].workspace == t.servers[server].workspace)
    && (forall server :: server in t.agents ==>
          t'.agents[server].workspace == t.agents[server].workspace && t'.agents[server].id == t.agents[server].id)
  }

  lemma {:induction false} CarryWorkspaces(s: State, s': State)
    requires WorkspacesOk(s) && SameWorkspaces(s.tables, s'.tables)
    requires forall c :: c in s'.streams ==> c in s.streams && s'.streams[c].record == s.streams[c].record
    ensures WorkspacesOk(s')
  {
    forall c | c in s'.streams ensures RecordOk(s'.tables, s'.streams[c].record) {
      assert RecordOk(s.tables, s.streams[c].record);
    }
  }

  lemma {:induction false} StatusKeepsWorkspaces(s: State, step: Step)
    requires Enabled(s, step)
    requires step.Connect? || step.Alive? || step.Close? || step.Sweep? || step.Test? || step.Rotate?
    ensures SameWorkspaces(s.tables, Apply(s, step).tables)
    ensures var s' := Apply(s, step);
            forall c :: c in s'.streams ==> c in s.streams && s'.streams[c].record == s.streams[c].record
  {
    var t := s.tables;
    hide SameWorkspaces, Fold, Authorises, ConnectEffect, AliveEffect, DisconnectEffect, SweepEffect, TestEffect;
    match step
    case Connect(c) => EffectsKeepWorkspaces(t, s.streams[c].record, c);
    case Alive(c) => EffectsKeepWorkspaces(t, s.streams[c].record, c);
    case Close(c) =>
      EffectsKeepWorkspaces(t, s.streams[c].record, c);
      SameWorkspace(t);
    case Sweep(servers) => SweepKeepsWorkspaces(t, servers);
    case Test(server, recent) => TestKeepsWorkspaces(t, server, recent);
    case Rotate(_, id, _, serial, expiresAt, _) => RotateKeepsWorkspaces(t, id, serial, expiresAt);
  }

  lemma {:induction false} SameWorkspace(t: Tables)
    ensures SameWorkspaces(t, t)
  {
  }

  lemma {:induction false} EffectsKeepWorkspaces(t: Tables, record: Record, connection: string)
    ensures SameWorkspaces(t, ConnectEffect(t, record, connection)) && SameWorkspaces(t, AliveEffect(t, record))
    ensures SameWorkspaces(t, DisconnectEffect(t, record, connection))
  {
    MarkAndSet(t, record, ConnectedAs(connection), Connected);
    MarkAndSet(t, record, SeenAlive(), Connected);
    MarkAndSet(t, record, GoneOffline(), Offline);
    SameWorkspace(t);
    hide Holds, MarkRow, SetServerStatus, SameWorkspaces;
  }

  lemma {:induction false} MarkAndSet(t: Tables, record: Record, f: Agent -> Agent, status: Status)
    requires forall a: Agent :: f(a).id == a.id && f(a).workspace == a.workspace
    ensures SameWorkspaces(t, SetServerStatus(MarkRow(t, record.id, f), record.server, record.workspace, status))
  {
    MarkKeepsWorkspaces(t, record.id, f);
    hide MarkRow;
  }

  lemma {:induction false} MarkKeepsWorkspaces(t: Tables, id: string, f: Agent -> Agent)
    requires forall a: Agent :: f(a).id == a.id && f(a).workspace == a.workspace
    ensures SameWorkspaces(t, MarkRow(t, id, f))
  {
  }

  lemma {:induction false} SweepKeepsWorkspaces(t: Tables, servers: set<string>)
    ensures SameWorkspaces(t, SweepEffect(t, servers))
  {
  }

  lemma {:induction false} TestKeepsWorkspaces(t: Tables, server: string, recent: bool)
    requires server in t.servers
    ensures SameWorkspaces(t, TestEffect(t, server, recent))
  {
  }

  lemma {:induction false} RotateKeepsWorkspaces(t: Tables, id: string, serial: string, expiresAt: int)
    ensures SameWorkspaces(t, MarkRow(t, id, WithSerial(serial, expiresAt)))
  {
  }

  lemma {:induction false} RegisterKeepsWorkspaces(s: State, step: Step)
    requires Inv(s) && WorkspacesOk(s) && step.Register? && Enabled(s, step)
    ensures WorkspacesOk(Apply(s, step))
  {
    RegisterRows(s.tables, step.hash, step.workspace, step.server, step.registration);
    var s' := Apply(s, step);
    hide Conflicts, TokenUsable, Fold;
    forall c | c in s'.streams ensures RecordOk(s'.tables, s'.streams[c].record) {
      assert RecordOk(s.tables, s.streams[c].record);
    }
  }

  lemma {:induction false} AuthorizeKeepsWorkspaces(s: State, step: Step)
    requires Inv(s) && WorkspacesOk(s) && step.Authorize? && Enabled(s, step)
    ensures WorkspacesOk(Apply(s, step))
  {
    var s' := Apply(s, step);
    hide Fold;
    forall c | c in s'.streams ensures RecordOk(s'.tables, s'.streams[c].record) {
      assert c != step.connection ==> RecordOk(s.tables, s.streams[c].record);
    }
  }

  lemma {:induction false} TokensKeepWorkspaces(s: State, step: Step)
    requires WorkspacesOk(s) && Enabled(s, step) && (step.AddServer? || step.IssueToken? || step.PurgeTokens?)
    ensures WorkspacesOk(Apply(s, step))
  {
    var s' := Apply(s, step);
    assert s'.tables.agents == s.tables.agents && s'.streams == s.streams;
    forall c | c in s'.streams ensures RecordOk(s'.tables, s'.streams[c].record) {
      assert RecordOk(s.tables, s.streams[c].record);
    }
    hide RecordOk;
  }

  lemma {:induction false} RemoveKeepsWorkspaces(s: State, server: string)
    requires WorkspacesOk(s)
    ensures WorkspacesOk(Apply(s, RemoveServer(server)))
  {
    var s' := Apply(s, RemoveServer(server));
    forall c | c in s'.streams ensures RecordOk(s'.tables, s'.streams[c].record) {
      assert RecordOk(s.tables, s.streams[c].record);
    }
    hide RecordOk;
  }

  lemma {:induction false} StepKeepsWorkspaces(s: State, step: Step)
    requires Inv(s) && WorkspacesOk(s) && Enabled(s, step)
    ensures WorkspacesOk(Apply(s, step))
  {
    match step
    case Register(_, _, _, _, _) => RegisterKeepsWorkspaces(s, step);
    case Authorize(_, _, _, _, _) => AuthorizeKeepsWorkspaces(s, step);
    case AddServer(_, _) => TokensKeepWorkspaces(s, step);
    case IssueToken(_, _) => TokensKeepWorkspaces(s, step);
    case PurgeTokens(_) => TokensKeepWorkspaces(s, step);
    case RemoveServer(server) => RemoveKeepsWorkspaces(s, server);
    case _ =>
      StatusKeepsWorkspaces(s, step);
      hide Inv, WorkspacesOk, SameWorkspaces, RecordOk;
      CarryWorkspaces(s, Apply(s, step));
  }

  lemma {:induction false} RunWorkspaces(states: seq<State>, steps: seq<Step>, i: nat)
    requires Run(states, steps) && i < |states|
    ensures Inv(states[i]) && WorkspacesOk(states[i])
  {
    if i > 0 {
      RunWorkspaces(states, steps, i - 1);
      assert Enabled(states[i - 1], steps[i - 1]);
      StepKeepsWorkspaces(states[i - 1], steps[i - 1]);
    }
    RunInv(states, steps, i);
  }

  // ----- The status is weaker than the lease -----

  /** The server shows as connected. */
  predicate ServerShown(s: Tables, server: string) {
    server in s.servers && s.servers[server].status == Connected
  }

  /** An open connection holds the server's current identity. */
  predicate Held(s: Tables, server: string) {
    server in s.agents && s.agents[server].connection.Some?
  }

  /** The server shows as connected, and no connection holds its identity. */
  predicate ShownUnheld(s: Tables, server: string) {
    ServerShown(s, server) && server in s.agents && !Held(s, server)
  }

  /** The stream's server row is the one the stream's transactions update. */
  predicate UpdatesServer(s: Tables, record: Record) {
    record.server in s.servers && s.servers[record.server].workspace == record.workspace
  }

  /** In every run a connection holds an identity exactly while the stream that connected last for it is open. */
  lemma {:induction false} HeldExactly(states: seq<State>, steps: seq<Step>, i: nat, server: string)
    requires Run(states, steps) && i < |states|
    ensures var s := states[i];
            Held(s.tables, server) <==> server in s.tables.agents && LatestOpen(s, s.tables.agents[server].id)
  {
    RunInv(states, steps, i);
    if server in states[i].tables.agents {
      assert LeaseOk(states[i], states[i].tables.agents[server]);
    }
  }

  /**
   * A heartbeat or batch leaves the agent's row connected without a connection exactly when the stream that connected
   * last for the agent is closed.
   */
  lemma {:induction false} AliveShowsAgentExactly(states: seq<State>, steps: seq<Step>, i: nat, server: string)
    requires Run(states, steps) && i < |steps| && steps[i].Alive? && steps[i].connection in states[i].streams
    requires RowOf(states[i].tables, server, states[i].streams[steps[i].connection].record.id)
    ensures var a := states[i].tables.agents[server];
            && server in states[i + 1].tables.agents && states[i + 1].tables.agents[server].status == Connected
            && (states[i + 1].tables.agents[server].connection.None? <==> !LatestOpen(states[i], a.id))
  {
    RunInv(states, steps, i);
    assert Enabled(states[i], steps[i]);
    assert LeaseOk(states[i], states[i].tables.agents[server]);
  }

  /**
   * It leaves the server connected without a held connection exactly when the stream updates that server and either the
   * stream's agent is still the server's identity and the stream that connected last for it is closed, or the agent was
   * replaced or removed and no stream that connected last for the server's identity, if there is one, is open.
   */
  lemma {:induction false} AliveShowsServerExactly(states: seq<State>, steps: seq<Step>, i: nat)
    requires Run(states, steps) && i < |steps| && steps[i].Alive? && steps[i].connection in states[i].streams
    requires UpdatesServer(states[i].tables, states[i].streams[steps[i].connection].record)
    ensures var s, s', record := states[i], states[i + 1], states[i].streams[steps[i].connection].record;
            && ServerShown(s'.tables, record.server)
            && (!Held(s'.tables, record.server) <==>
                if RowOf(s.tables, record.server, record.id) then !LatestOpen(s, record.id)
                else record.server in s.tables.agents ==> !LatestOpen(s, s.tables.agents[record.server].id))
  {
    var s, record := states[i], states[i].streams[steps[i].connection].record;
    assert Enabled(s, steps[i]);
    HeldExactly(states, steps, i, record.server);
    HeldExactly(states, steps, i + 1, record.server);
  }

  /** So the stream's own agent holds the server it shows as connected exactly when it is still the server's identity
      and the stream that connected last for it is open. */
  lemma {:induction false} AliveIsHeldExactly(states: seq<State>, steps: seq<Step>, i: nat)
    requires Run(states, steps) && i < |steps| && steps[i].Alive? && steps[i].connection in states[i].streams
    ensures var s, s', record := states[i], states[i + 1], states[i].streams[steps[i].connection].record;
            Held(s'.tables, record.server) && RowOf(s'.tables, record.server, record.id)
            <==> RowOf(s.tables, record.server, record.id) && LatestOpen(s, record.id)
  {
    var s, record := states[i], states[i].streams[steps[i].connection].record;
    assert Enabled(s, steps[i]);
    HeldExactly(states, steps, i + 1, record.server);
  }

  /**
   * A Hello leaves its server held exactly when the stream's agent is still the server's identity or the stream that
   * connected last for the identity is open. The server shows as connected in any case.
   */
  lemma {:induction false} ConnectShowsServerExactly(states: seq<State>, steps: seq<Step>, i: nat)
    requires Run(states, steps) && i < |steps| && steps[i].Connect? && steps[i].connection in states[i].streams
    requires UpdatesServer(states[i].tables, states[i].streams[steps[i].connection].record)
    ensures var s, s', record := states[i], states[i + 1], states[i].streams[steps[i].connection].record;
            && ServerShown(s'.tables, record.server)
            && (Held(s'.tables, record.server) <==>
                || RowOf(s.tables, record.server, record.id)
                || (record.server in s.tables.agents && LatestOpen(s, s.tables.agents[record.server].id)))
  {
    var s, record := states[i], states[i].streams[steps[i].connection].record;
    assert Enabled(s, steps[i]);
    HeldExactly(states, steps, i, record.server);
    HeldExactly(states, steps, i + 1, record.server);
  }

  // ----- The sweep and the test, row by row -----

  /** The sweep sets offline the listed identities that show as connected, then the servers of offline ones. */
  lemma {:induction false} SweptExactly(t: Tables, listed: set<string>, server: string)
    requires server in t.agents
    ensures var t' := SweepEffect(t, listed);
            && t'.agents.Keys == t.agents.Keys && t'.servers.Keys == t.servers.Keys && t'.tokens == t.tokens
            && t'.agents[server] == (if t.agents[server].status == Connected && server in listed
                                     then t.agents[server].(status := Offline) else t.agents[server])
    ensures server in t.servers ==>
              var t' := SweepEffect(t, listed);
              && t'.servers[server].workspace == t.servers[server].workspace
              && t'.servers[server].status == (if t.servers[server].status == Connected
                                                  && (t.agents[server].status == Offline
                                                      || (t.agents[server].status == Connected && server in listed))
                                               then Offline else t.servers[server].status)
  {
  }

  lemma {:induction false} SweepSparesOthers(t: Tables, listed: set<string>, server: string)
    requires server in t.servers && server !in t.agents
    ensures server in SweepEffect(t, listed).servers && SweepEffect(t, listed).servers[server] == t.servers[server]
  {
  }

  /** A test shows the server as pending without an identity, and else as connected or offline by the last contact. */
  lemma {:induction false} TestedExactly(t: Tables, server: string, recent: bool)
    requires server in t.servers
    ensures var status := TestEffect(t, server, recent).servers[server].status;
            && (status == Pending <==> server !in t.agents || t.agents[server].revoked)
            && (status == Connected <==>
                server in t.agents && !t.agents[server].revoked && t.agents[server].seen && recent)
            && status in {Pending, Connected, Offline}
    ensures TestEffect(t, server, recent).agents == t.agents && TestEffect(t, server, recent).tokens == t.tokens
    ensures forall other :: other in t.servers && other != server ==>
              other in TestEffect(t, server, recent).servers
              && TestEffect(t, server, recent).servers[other] == t.servers[other]
  {
  }

  // ----- All ways to show a server that is not held -----

  /** The step sets the server to connected. */
  predicate Shows(s: State, step: Step, server: string)
    requires Enabled(s, step)
  {
    match step
    case Connect(c) =>
      var record := s.streams[c].record;
      record.server == server && UpdatesServer(s.tables, record)
    case Alive(c) =>
      var record := s.streams[c].record;
      record.server == server && UpdatesServer(s.tables, record)
    case Test(tested, recent) =>
      && tested == server && recent
      && server in s.tables.agents && s.tables.agents[server].seen && !s.tables.agents[server].revoked
    case _ => false
  }

  /** The step sets the server to connected and does not hold its identity. */
  predicate ShowsUnheld(s: State, step: Step, server: string)
    requires Enabled(s, step) && server in s.tables.agents
  {
    && Shows(s, step, server)
    && (step.Connect? ==> s.streams[step.connection].record.id != s.tables.agents[server].id)
  }

  /** A closing stream that gives up the identity of a server sets that server offline. */
  lemma {:induction false} CloseHidesServer(s: State, step: Step, server: string)
    requires Inv(s) && WorkspacesOk(s) && step.Close? && Enabled(s, step)
    requires Held(s.tables, server) && !Held(Apply(s, step).tables, server)
    ensures !ServerShown(Apply(s, step).tables, server)
  {
    var stream := s.streams[step.connection];
    assert RecordOk(s.tables, stream.record);
    assert server in s.tables.servers && s.tables.servers[server].workspace == s.tables.agents[server].workspace;
    hide Inv, WorkspacesOk, Holds;
  }

  /** Whatever the step, only these three set a server from not shown to shown. */
  lemma {:induction false} ShownBy(s: State, step: Step, server: string)
    requires Inv(s) && WorkspacesOk(s) && Enabled(s, step) && server in Apply(s, step).tables.agents
    requires !ServerShown(s.tables, server)
    ensures ServerShown(Apply(s, step).tables, server) <==> server in s.tables.agents && Shows(s, step, server)
  {
    hide Inv, Held, Fold, Authorises;
    match step
    case Register(_, _, _, _, _) =>
      RegisterHides(s, step, server);
      hide WorkspacesOk, Apply, Enabled;
    case Connect(c) =>
      MarkAndSetShows(s.tables, s.streams[c].record, ConnectedAs(c), Connected, server);
      hide WorkspacesOk, SetServerStatus, MarkRow;
    case Alive(c) =>
      MarkAndSetShows(s.tables, s.streams[c].record, SeenAlive(), Connected, server);
      hide WorkspacesOk, SetServerStatus, MarkRow;
    case Close(c) =>
      MarkAndSetShows(s.tables, s.streams[c].record, GoneOffline(), Offline, server);
      hide WorkspacesOk, Holds, SetServerStatus, MarkRow;
    case _ => hide WorkspacesOk;
  }

  lemma {:induction false} MarkAndSetShows(t: Tables, record: Record, f: Agent -> Agent, status: Status, server: string)
    ensures var t' := SetServerStatus(MarkRow(t, record.id, f), record.server, record.workspace, status);
            && t'.agents.Keys == t.agents.Keys
            && (ServerShown(t', server) <==>
                if server == record.server && UpdatesServer(t, record) then status == Connected
                else ServerShown(t, server))
  {
  }

  lemma {:induction false} GoneIsNotShown(s: State, step: Step, server: string)
    requires Enabled(s, step) && server in s.tables.agents && server !in Apply(s, step).tables.agents
    ensures !Shows(s, step, server)
  {
  }

  /** The step holds the server's identity, or leaves it held. */
  lemma {:induction false} HeldAfter(s: State, step: Step, server: string)
    requires Inv(s) && WorkspacesOk(s) && Enabled(s, step) && server in s.tables.agents && Shows(s, step, server)
    ensures Held(Apply(s, step).tables, server)
       <==> LatestOpen(s, s.tables.agents[server].id)
            || (step.Connect? && s.streams[step.connection].record.id == s.tables.agents[server].id)
  {
  }

  lemma {:induction false} CloseKeepsRows(s: State, step: Step)
    requires step.Close? && Enabled(s, step)
    ensures Apply(s, step).tables.agents.Keys == s.tables.agents.Keys
  {
    hide Holds;
  }

  lemma {:induction false} ConnectKeepsHeld(t: Tables, record: Record, connection: string)
    ensures var t' := ConnectEffect(t, record, connection);
            t'.agents.Keys == t.agents.Keys && forall server :: Held(t, server) ==> Held(t', server)
  {
  }

  /** Pairing sets the server to pending, and touches no other one. */
  lemma {:induction false} RegisterHides(s: State, step: Step, server: string)
    requires WorkspacesOk(s) && step.Register? && Enabled(s, step)
    ensures var t, t' := s.tables, Apply(s, step).tables;
            if server == step.server then !ServerShown(t', server)
            else
              && (server in t'.agents <==> server in t.agents) && (Held(t', server) <==> Held(t, server))
              && (ServerShown(t', server) <==> ServerShown(t, server))
  {
    assert s.tables.servers[step.server].workspace == step.workspace;
    hide WorkspacesOk, Conflicts, TokenUsable, Fold;
  }

  /** A step that gives up the identity of a server, or gives a shown one its first, leaves the server not shown. */
  lemma {:induction false} GivingUpHides(s: State, step: Step, server: string)
    requires Inv(s) && WorkspacesOk(s) && Enabled(s, step) && server in Apply(s, step).tables.agents
    requires Held(s.tables, server) || server !in s.tables.agents
    requires !Held(Apply(s, step).tables, server)
    ensures !ServerShown(Apply(s, step).tables, server)
  {
    hide ServerShown;
    match step
    case Close(_) =>
      CloseKeepsRows(s, step);
      CloseHidesServer(s, step, server);
    case Register(_, _, _, _, _) => RegisterHides(s, step, server);
    case Connect(c) => ConnectKeepsHeld(s.tables, s.streams[c].record, c);
    case Authorize(_, _, _, _, _) => hide Inv, WorkspacesOk, Authorises;
    case _ =>
      QuietLeaseStep(s, step);
      hide Inv, WorkspacesOk, Apply, Enabled;
  }

  /**
   * In every run a step makes a server show as connected with nobody holding its identity exactly when the server did
   * not show before, no stream that connected last for the identity is open, and the step is one of three: a Hello
   * on a stream of an agent that is no longer the server's identity, a heartbeat or batch on any stream of the server,
   * or a test of the connection soon after the last contact. In particular no step that gives up an identity does.
   */
  lemma {:induction false} ShownUnheldExactly(states: seq<State>, steps: seq<Step>, i: nat, server: string)
    requires Run(states, steps) && i < |steps|
    ensures var s, t, t' := states[i], states[i].tables, states[i + 1].tables;
            !ShownUnheld(t, server) && ShownUnheld(t', server)
            <==> && server in t.agents && !ServerShown(t, server) && !LatestOpen(s, t.agents[server].id)
                 && ShowsUnheld(s, steps[i], server)
  {
    var s, s', step := states[i], states[i + 1], steps[i];
    RunWorkspaces(states, steps, i);
    HeldExactly(states, steps, i, server);
    hide Inv, WorkspacesOk, Run, Apply, Enabled, Held, Shows;
    if ServerShown(s.tables, server) {
      if server in s'.tables.agents && !Held(s'.tables, server) && !ShownUnheld(s.tables, server) {
        GivingUpHides(s, step, server);
      }
    } else if server in s'.tables.agents {
      ShownBy(s, step, server);
      if server in s.tables.agents && Shows(s, step, server) {
        HeldAfter(s, step, server);
      }
    } else if server in s.tables.agents {
      GoneIsNotShown(s, step, server);
    }
  }
}
