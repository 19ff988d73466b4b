/** Four runs in which a server shows as connected although no connection holds its identity. */
module AgentTableRuns {
  import opened Wrappers
  import opened AgentTables
  import opened AgentTableStatus

  /** A run and the state it ends in. */
  ghost predicate Ends(states: seq<State>, steps: seq<Step>, last: State) {
    Run(states, steps) && states[|steps|] == last
  }

  lemma {:induction false} GoOn(states: seq<State>, steps: seq<Step>, last: State, step: Step)
    returns (states': seq<State>, steps': seq<Step>)
    requires Ends(states, steps, last) && Enabled(last, step)
    ensures Ends(states', steps', Apply(last, step)) && steps' == steps + [step]
    ensures states' == states + [Apply(last, step)]
  {
    states', steps' := states + [Apply(last, step)], steps + [step];
    hide Enabled, Apply;
    forall i | 0 <= i < |steps'|
      ensures Enabled(states'[i], steps'[i]) && states'[i + 1] == Apply(states'[i], steps'[i])
    {
      if i < |steps| {
        assert states'[i] == states[i] && steps'[i] == steps[i] && states'[i + 1] == states[i + 1];
      }
    }
  }

  const NOTHING: Tables := Tables(map[], map[], map[])
  const START: State := State(NOTHING, map[], {}, map[], {}, {}, {}, {}, map[])

  function Identity(id: string, serial: string, status: Status, connection: Option<string>, seen: bool): Agent {
    Agent(id, "w", id, serial, 9, status, false, connection, seen)
  }

  const TOKEN: Token := Token("w", "s", false, false, 9)
  const FIRST: Registration := Registration("a1", "a1", "c1", 9)
  const SECOND: Registration := Registration("a2", "a2", "c2", 9)

  function Serving(status: Status): map<string, Server> {
    map["s" := Server("w", true, status)]
  }

  function Stays(connected: bool): Stream {
    Stream(Record("a1", "w", "s"), connected)
  }

  // ----- From nothing to one connected agent -----

  const ADDED: State := START.(tables := Tables(map[], map[], Serving(Pending)))
  const ISSUED: State := ADDED.(tables := Tables(map["t1" := TOKEN], map[], Serving(Pending)), hashes := {"t1"})
  const REGISTERED: State :=
    State(Tables(map["t1" := TOKEN.(used := true)], map["s" := Identity("a1", "c1", Paired, None, false)],
                 Serving(Pending)),
          map[], {"t1"}, map["t1" := "a1"], {"a1"}, {"c1"}, {}, {}, map[])
  const AUTHORIZED: State := REGISTERED.(streams := map["x" := Stays(false)], connections := {"x"})
  const CONNECTED: State :=
    AUTHORIZED.(tables := REGISTERED.tables.(agents := map["s" := Identity("a1", "c1", Connected, Some("x"), true)],
                                             servers := Serving(Connected)),
                streams := map["x" := Stays(true)], last := map["a1" := "x"])

  lemma {:induction false} FoldPlain(serial: string)
    requires forall i :: 0 <= i < |serial| ==> LowerCase(serial[i]) == serial[i]
    ensures Fold(serial) == serial
  {
  }

  lemma {:induction false} Adds()
    ensures Enabled(START, AddServer("s", Server("w", true, Pending)))
    ensures Apply(START, AddServer("s", Server("w", true, Pending))) == ADDED
  {
  }

  lemma {:induction false} Issues()
    ensures Enabled(ADDED, IssueToken("t1", TOKEN)) && Apply(ADDED, IssueToken("t1", TOKEN)) == ISSUED
  {
    assert IssueEffect(ADDED.tables, "t1", TOKEN).tokens == map["t1" := TOKEN];
  }

  lemma {:induction false} Registers()
    ensures Enabled(ISSUED, Register("t1", "w", "s", FIRST, 0))
    ensures Apply(ISSUED, Register("t1", "w", "s", FIRST, 0)) == REGISTERED
  {
    FoldPlain("c1");
    var after := Registered(ISSUED.tables, "t1", "w", "s", FIRST);
    assert after == REGISTERED.tables;
  }

  lemma {:induction false} Authorizes()
    ensures Enabled(REGISTERED, Authorize("x", "s", "a1", "c1", 0))
    ensures Apply(REGISTERED, Authorize("x", "s", "a1", "c1", 0)) == AUTHORIZED
  {
  }

  lemma {:induction false} ConnectsTables()
    ensures ConnectEffect(AUTHORIZED.tables, Stays(false).record, "x") == CONNECTED.tables
  {
    var after := ConnectEffect(AUTHORIZED.tables, Stays(false).record, "x");
    assert after.agents == CONNECTED.tables.agents;
    assert after.servers == CONNECTED.tables.servers;
  }

  lemma {:induction false} Connects()
    ensures Enabled(AUTHORIZED, Connect("x")) && Apply(AUTHORIZED, Connect("x")) == CONNECTED
  {
    hide ConnectEffect;
    ConnectsTables();
  }

  lemma {:induction false} PairAndConnect() returns (states: seq<State>, steps: seq<Step>)
    ensures Ends(states, steps, CONNECTED)
  {
    states, steps := [START], [];
    hide Enabled, Apply;
    Adds();
    states, steps := GoOn(states, steps, START, AddServer("s", Server("w", true, Pending)));
    Issues();
    states, steps := GoOn(states, steps, ADDED, IssueToken("t1", TOKEN));
    Registers();
    states, steps := GoOn(states, steps, ISSUED, Register("t1", "w", "s", FIRST, 0));
    Authorizes();
    states, steps := GoOn(states, steps, REGISTERED, Authorize("x", "s", "a1", "c1", 0));
    Connects();
    states, steps := GoOn(states, steps, AUTHORIZED, Connect("x"));
  }

  // ----- A heartbeat on an older stream -----

  const REAUTHORIZED: State :=
    CONNECTED.(streams := map["x" := Stays(true), "y" := Stays(false)], connections := {"x", "y"})
  const RECONNECTED: State :=
    REAUTHORIZED.(tables := CONNECTED.tables.(agents := map["s" := Identity("a1", "c1", Connected, Some("y"), true)]),
                  streams := map["x" := Stays(true), "y" := Stays(true)], last := map["a1" := "y"])
  const CLOSED: State :=
    RECONNECTED.(tables := CONNECTED.tables.(agents := map["s" := Identity("a1", "c1", Offline, None, true)],
                                             servers := Serving(Offline)),
                 streams := map["x" := Stays(true)])
  const SHOWN: State :=
    CLOSED.(tables := CONNECTED.tables.(agents := map["s" := Identity("a1", "c1", Connected, None, true)]))

  lemma {:induction false} Reauthorizes()
    ensures Enabled(CONNECTED, Authorize("y", "s", "a1", "c1", 0))
    ensures Apply(CONNECTED, Authorize("y", "s", "a1", "c1", 0)) == REAUTHORIZED
  {
    assert map["x" := Stays(true)]["y" := Stays(false)] == REAUTHORIZED.streams;
  }

  lemma {:induction false} ReconnectsTables()
    ensures ConnectEffect(REAUTHORIZED.tables, Stays(false).record, "y") == RECONNECTED.tables
  {
    var after := ConnectEffect(REAUTHORIZED.tables, Stays(false).record, "y");
    assert after.agents == RECONNECTED.tables.agents;
    assert after.servers == RECONNECTED.tables.servers;
  }

  lemma {:induction false} Reconnects()
    ensures Enabled(REAUTHORIZED, Connect("y")) && Apply(REAUTHORIZED, Connect("y")) == RECONNECTED
  {
    hide ConnectEffect;
    ReconnectsTables();
    assert REAUTHORIZED.streams["y" := Stays(true)] == RECONNECTED.streams;
    assert REAUTHORIZED.last["a1" := "y"] == RECONNECTED.last;
  }

  lemma {:induction false} ClosesTables()
    ensures DisconnectEffect(RECONNECTED.tables, Stays(true).record, "y") == CLOSED.tables
  {
    assert RowOf(RECONNECTED.tables, "s", "a1") && Holds(RECONNECTED.tables, "a1", "y");
    hide Holds;
    var after := DisconnectEffect(RECONNECTED.tables, Stays(true).record, "y");
    assert after.agents == CLOSED.tables.agents;
    assert after.servers == CLOSED.tables.servers;
  }

  lemma {:induction false} Closes()
    ensures Enabled(RECONNECTED, Close("y")) && Apply(RECONNECTED, Close("y")) == CLOSED
  {
    hide DisconnectEffect;
    ClosesTables();
    assert RECONNECTED.streams - {"y"} == CLOSED.streams;
  }

  /** A heartbeat of the one identity. */
  lemma {:induction false} AliveOne(t: Tables, a: Agent, status: Status, record: Record)
    requires t.agents == map["s" := a] && t.servers == Serving(status) && record == Record(a.id, "w", "s")
    ensures AliveEffect(t, record)
         == t.(agents := map["s" := a.(status := Connected, seen := true)], servers := Serving(Connected))
  {
    var after := AliveEffect(t, record);
    assert after.agents == map["s" := a.(status := Connected, seen := true)];
    assert after.servers == Serving(Connected);
  }

  lemma {:induction false} BeatsTables()
    ensures AliveEffect(CLOSED.tables, Stays(true).record) == SHOWN.tables
  {
    hide AliveEffect;
    AliveOne(CLOSED.tables, Identity("a1", "c1", Offline, None, true), Offline, Stays(true).record);
  }

  lemma {:induction false} Beats()
    ensures Enabled(CLOSED, Alive("x")) && Apply(CLOSED, Alive("x")) == SHOWN
  {
    hide AliveEffect;
    BeatsTables();
  }

  /**
   * After the stream that connected last has closed, a heartbeat on an older one shows agent and server as connected.
   */
  lemma {:induction false} LateHeartbeatRun() returns (states: seq<State>, steps: seq<Step>)
    ensures Run(states, steps) && steps != [] && steps[|steps| - 1].Alive?
    ensures var t := states[|steps|].tables;
            ShownUnheld(t, "s") && t.agents["s"].status == Connected
  {
    states, steps := PairAndConnect();
    hide Enabled, Apply;
    Reauthorizes();
    states, steps := GoOn(states, steps, CONNECTED, Authorize("y", "s", "a1", "c1", 0));
    Reconnects();
    states, steps := GoOn(states, steps, REAUTHORIZED, Connect("y"));
    Closes();
    states, steps := GoOn(states, steps, RECONNECTED, Close("y"));
    Beats();
    states, steps := GoOn(states, steps, CLOSED, Alive("x"));
  }

  // ----- A heartbeat of a replaced agent -----

  const REISSUED: State :=
    CONNECTED.(tables := CONNECTED.tables.(tokens := map["t1" := TOKEN.(used := true), "t2" := TOKEN]),
               hashes := {"t1", "t2"})
  const REPLACED: State :=
    State(Tables(map["t1" := TOKEN.(used := true), "t2" := TOKEN.(used := true)],
                 map["s" := Identity("a2", "c2", Paired, None, false)], Serving(Pending)),
          map["x" := Stays(true)], {"t1", "t2"}, map["t1" := "a1", "t2" := "a2"], {"a1", "a2"}, {"c1", "c2"}, {"x"},
          {("a1", "c1")}, map["a1" := "x"])
  const SHOWN_REPLACED: State := REPLACED.(tables := REPLACED.tables.(servers := Serving(Connected)))

  lemma {:induction false} Reissues()
    ensures Enabled(CONNECTED, IssueToken("t2", TOKEN)) && Apply(CONNECTED, IssueToken("t2", TOKEN)) == REISSUED
  {
    assert IssueEffect(CONNECTED.tables, "t2", TOKEN).tokens == REISSUED.tables.tokens;
  }

  lemma {:induction false} ReplacesTables()
    ensures Registered(REISSUED.tables, "t2", "w", "s", SECOND) == REPLACED.tables
  {
    var after := Registered(REISSUED.tables, "t2", "w", "s", SECOND);
    assert after.tokens == REPLACED.tables.tokens;
    assert after.agents == REPLACED.tables.agents;
    assert after.servers == REPLACED.tables.servers;
  }

  lemma {:induction false} Replaces()
    ensures Enabled(REISSUED, Register("t2", "w", "s", SECOND, 0))
    ensures Apply(REISSUED, Register("t2", "w", "s", SECOND, 0)) == REPLACED
  {
    FoldPlain("c1");
    FoldPlain("c2");
    ReplacesTables();
    hide Registered, Fold;
    assert REISSUED.registrations["t2" := "a2"] == REPLACED.registrations;
  }

  lemma {:induction false} BeatsReplacedTables()
    ensures AliveEffect(REPLACED.tables, Stays(true).record) == SHOWN_REPLACED.tables
  {
    var after := AliveEffect(REPLACED.tables, Stays(true).record);
    assert after.agents == SHOWN_REPLACED.tables.agents;
    assert after.servers == SHOWN_REPLACED.tables.servers;
  }

  lemma {:induction false} BeatsReplaced()
    ensures Enabled(REPLACED, Alive("x")) && Apply(REPLACED, Alive("x")) == SHOWN_REPLACED
  {
    hide AliveEffect;
    BeatsReplacedTables();
  }

  /** A heartbeat of an agent that was replaced by a new pairing shows the server as connected while the new identity
      has never connected. */
  lemma {:induction false} ReplacedHeartbeatRun() returns (states: seq<State>, steps: seq<Step>)
    ensures Run(states, steps) && steps != [] && steps[|steps| - 1].Alive?
    ensures var t := states[|steps|].tables;
            ShownUnheld(t, "s") && t.agents["s"].status == Paired
  {
    states, steps := PairAndConnect();
    hide Enabled, Apply;
    Reissues();
    states, steps := GoOn(states, steps, CONNECTED, IssueToken("t2", TOKEN));
    Replaces();
    states, steps := GoOn(states, steps, REISSUED, Register("t2", "w", "s", SECOND, 0));
    BeatsReplaced();
    states, steps := GoOn(states, steps, REPLACED, Alive("x"));
  }

  // ----- A Hello of a replaced agent -----

  lemma {:induction false} GreetsTables()
    ensures ConnectEffect(REPLACED.tables, Stays(true).record, "x") == SHOWN_REPLACED.tables
  {
    var after := ConnectEffect(REPLACED.tables, Stays(true).record, "x");
    assert after.agents == SHOWN_REPLACED.tables.agents;
    assert after.servers == SHOWN_REPLACED.tables.servers;
  }

  lemma {:induction false} Greets()
    ensures Enabled(REPLACED, Connect("x")) && Apply(REPLACED, Connect("x")) == SHOWN_REPLACED
  {
    hide ConnectEffect;
    GreetsTables();
    assert REPLACED.streams["x" := Stays(true)] == SHOWN_REPLACED.streams;
    assert REPLACED.last["a1" := "x"] == SHOWN_REPLACED.last;
  }

  /** So does another Hello on the stream of the replaced agent. */
  lemma {:induction false} ReplacedHelloRun() returns (states: seq<State>, steps: seq<Step>)
    ensures Run(states, steps) && steps != [] && steps[|steps| - 1].Connect?
    ensures var t := states[|steps|].tables;
            ShownUnheld(t, "s") && t.agents["s"].status == Paired
  {
    states, steps := PairAndConnect();
    hide Enabled, Apply;
    Reissues();
    states, steps := GoOn(states, steps, CONNECTED, IssueToken("t2", TOKEN));
    Replaces();
    states, steps := GoOn(states, steps, REISSUED, Register("t2", "w", "s", SECOND, 0));
    Greets();
    states, steps := GoOn(states, steps, REPLACED, Connect("x"));
  }

  // ----- A test soon after the last contact -----

  const LEFT: State :=
    CONNECTED.(tables := CONNECTED.tables.(agents := map["s" := Identity("a1", "c1", Offline, None, true)],
                                           servers := Serving(Offline)),
               streams := map[])
  const TESTED: State := LEFT.(tables := LEFT.tables.(servers := Serving(Connected)))

  lemma {:induction false} LeavesTables()
    ensures DisconnectEffect(CONNECTED.tables, Stays(true).record, "x") == LEFT.tables
  {
    assert RowOf(CONNECTED.tables, "s", "a1") && Holds(CONNECTED.tables, "a1", "x");
    hide Holds;
    var after := DisconnectEffect(CONNECTED.tables, Stays(true).record, "x");
    assert after.agents == LEFT.tables.agents;
    assert after.servers == LEFT.tables.servers;
  }

  lemma {:induction false} Leaves()
    ensures Enabled(CONNECTED, Close("x")) && Apply(CONNECTED, Close("x")) == LEFT
  {
    hide DisconnectEffect;
    LeavesTables();
    assert CONNECTED.streams - {"x"} == LEFT.streams;
  }

  lemma {:induction false} Tests()
    ensures Enabled(LEFT, Test("s", true)) && Apply(LEFT, Test("s", true)) == TESTED
  {
    assert TestEffect(LEFT.tables, "s", true).servers == TESTED.tables.servers;
  }

  /** A test of the connection soon after the only stream has closed shows the server as connected again. */
  lemma {:induction false} TestedRun() returns (states: seq<State>, steps: seq<Step>)
    ensures Run(states, steps) && steps != [] && steps[|steps| - 1].Test?
    ensures var t := states[|steps|].tables;
            ShownUnheld(t, "s") && t.agents["s"].status == Offline && states[|steps|].streams == map[]
  {
    states, steps := PairAndConnect();
    hide Enabled, Apply;
    Leaves();
    states, steps := GoOn(states, steps, CONNECTED, Close("x"));
    Tests();
    states, steps := GoOn(states, steps, LEFT, Test("s", true));
  }
}
