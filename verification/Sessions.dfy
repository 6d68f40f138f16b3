/** The server's indexes of control connections, clients, sessions and run IDs. */
module Sessions {
  import opened Wrappers
  import opened Subsequences

  type Conn = nat

  datatype Session = Session(runId: string, conn: Conn)

  datatype Index = Index(
    controlConns: set<Conn>,
    controlClients: map<Conn, string>,
    clientControl: map<string, Conn>,
    sessions: map<string, Session>,
    runIds: map<string, string>)

  const EMPTY := Index({}, map[], map[], map[], map[])

  // The operations on values.

  function Registered(x: Index, client: string, conn: Conn, runId: string): Index {
    var stale := client in x.sessions && x.sessions[client].runId != runId &&
                 x.sessions[client].runId in x.runIds && x.runIds[x.sessions[client].runId] == client;
    var kept := if stale then x.runIds - {x.sessions[client].runId} else x.runIds;
    x.(sessions := x.sessions[client := Session(runId, conn)],
       runIds := if runId != "" then kept[runId := client] else kept)
  }

  function Bound(x: Index, client: string, conn: Conn): Index {
    x.(controlClients := x.controlClients[conn := client], clientControl := x.clientControl[client := conn])
  }

  function Untracked(x: Index, conn: Conn): Index {
    var x1 :=
      if conn !in x.controlClients then x else
      var client := x.controlClients[conn];
      var active := client in x.clientControl && x.clientControl[client] == conn;
      var owns := client in x.sessions && x.sessions[client].conn == conn;
      x.(clientControl := if active then x.clientControl - {client} else x.clientControl,
         runIds := if owns then x.runIds - {x.sessions[client].runId} else x.runIds,
         sessions := if owns then x.sessions - {client} else x.sessions);
    x1.(controlConns := x1.controlConns - {conn}, controlClients := x1.controlClients - {conn})
  }

  function Resolve(x: Index, runId: string): Option<(string, Session)> {
    if runId in x.runIds && x.runIds[runId] in x.sessions
    then Some((x.runIds[runId], x.sessions[x.runIds[runId]])) else None
  }

  class Engine {
    var controlConns: set<Conn>
    var controlClients: map<Conn, string>
    var clientControl: map<string, Conn>
    var officialSessions: map<string, Session>
    var sessionRunIDs: map<string, string>

    ghost function Model(): Index
      reads this
    {
      Index(controlConns, controlClients, clientControl, officialSessions, sessionRunIDs)
    }

    constructor ()
      ensures Model() == EMPTY
    {
      controlConns, controlClients, clientControl, officialSessions, sessionRunIDs := {}, map[], map[], map[], map[];
    }

    method TrackControl(conn: Conn)
      modifies this`controlConns
      ensures Model() == old(Model()).(controlConns := old(controlConns) + {conn})
    {
      controlConns := controlConns + {conn};
    }

    method RegisterOfficialSession(client: string, conn: Conn, runId: string)
      modifies this`officialSessions, this`sessionRunIDs
      ensures Model() == Registered(old(Model()), client, conn, runId)
    {
      if client in officialSessions && officialSessions[client].runId != runId {
        var previous := officialSessions[client];
        if previous.runId in sessionRunIDs && sessionRunIDs[previous.runId] == client {
          sessionRunIDs := sessionRunIDs - {previous.runId};
        }
      }
      officialSessions := officialSessions[client := Session(runId, conn)];
      if runId != "" {
        sessionRunIDs := sessionRunIDs[runId := client];
      }
    }

    /** Makes a connection the client's; the one it replaces is closed by the caller. */
    method BindControlClient(conn: Conn, client: string) returns (replaced: Option<Conn>)
      modifies this`controlClients, this`clientControl
      ensures Model() == Bound(old(Model()), client, conn)
      ensures replaced == if client in old(clientControl) then Some(old(clientControl)[client]) else None
    {
      replaced := if client in clientControl then Some(clientControl[client]) else None;
      controlClients, clientControl := controlClients[conn := client], clientControl[client := conn];
    }

    method UntrackControl(conn: Conn)
      modifies this
      ensures Model() == Untracked(old(Model()), conn)
    {
      if conn in controlClients {
        var client := controlClients[conn];
        if client in clientControl && clientControl[client] == conn {
          clientControl := clientControl - {client};
        }
        if client in officialSessions && officialSessions[client].conn == conn {
          sessionRunIDs := sessionRunIDs - {officialSessions[client].runId};
          officialSessions := officialSessions - {client};
        }
      }
      controlConns, controlClients := controlConns - {conn}, controlClients - {conn};
    }

    method SessionByRunID(runId: string) returns (found: Option<(string, Session)>)
      ensures found == Resolve(Model(), runId)
    {
      if runId !in sessionRunIDs || sessionRunIDs[runId] !in officialSessions {
        return None;
      }
      found := Some((sessionRunIDs[runId], officialSessions[sessionRunIDs[runId]]));
    }
  }

  // Interleavings.

  /** What a connection's handler has done: accepted it; registered the session of an official
      client, about to bind it; bound it to its client. */
  datatype Phase = Accepted | Pending(client: string) | Serving(client: string, official: bool)

  datatype Server = Server(index: Index, phase: map<Conn, Phase>)

  /** The steps of the handlers, each under the engine lock. Run IDs are chosen by the clients. */
  datatype Step =
    | Accept(conn: Conn)
    | Register(conn: Conn, client: string, runId: string)
    | Bind(conn: Conn, client: string)
    | Leave(conn: Conn)

  /** The order in which one handler does its steps; an official client's run ID is never empty. */
  predicate Enabled(y: Server, t: Step) {
    match t
    case Accept(conn) => conn !in y.phase
    case Register(conn, _, runId) => conn in y.phase && y.phase[conn].Accepted? && runId != ""
    case Bind(conn, client) => conn in y.phase && y.phase[conn] in {Accepted, Pending(client)}
    case Leave(conn) => conn in y.phase && !y.phase[conn].Pending?
  }

  function Next(y: Server, t: Step): Server {
    if !Enabled(y, t) then y else
    match t
    case Accept(conn) => Server(y.index.(controlConns := y.index.controlConns + {conn}), y.phase[conn := Accepted])
    case Register(conn, client, runId) =>
      Server(Registered(y.index, client, conn, runId), y.phase[conn := Pending(client)])
    case Bind(conn, client) =>
      Server(Bound(y.index, client, conn), y.phase[conn := Serving(client, y.phase[conn].Pending?)])
    case Leave(conn) => Server(Untracked(y.index, conn), y.phase - {conn})
  }

  function Run(steps: seq<Step>): Server
    decreases |steps|
  {
    if steps == [] then Server(EMPTY, map[]) else Next(Run(Init(steps)), Last(steps))
  }

  /** The connections known are those with a handler. */
  ghost predicate ConnsMatch(y: Server) {
    && (forall k :: k in y.index.controlConns <==> k in y.phase)
    && (forall k :: k in y.index.controlClients <==> k in y.phase && y.phase[k].Serving?)
    && (forall k :: k in y.index.controlClients ==>
         y.phase[k].Serving? && y.phase[k].client == y.index.controlClients[k])
  }

  /** A client's connection is known to be that client's. */
  predicate InverseAgrees(x: Index) {
    forall c :: c in x.clientControl ==>
      x.clientControl[c] in x.controlClients && x.controlClients[x.clientControl[c]] == c
  }

  /** A session's connection has a handler, of that client. */
  predicate SessionsLive(y: Server) {
    forall c :: c in y.index.sessions ==>
      && y.index.sessions[c].conn in y.phase && y.index.sessions[c].runId != ""
      && y.phase[y.index.sessions[c].conn] in {Pending(c), Serving(c, true)}
  }

  /** A run ID leads to a session that carries it. */
  predicate RunIdsResolve(x: Index) {
    forall r :: r in x.runIds ==> x.runIds[r] in x.sessions && x.sessions[x.runIds[r]].runId == r
  }

  ghost predicate Sound(y: Server) {
    ConnsMatch(y) && InverseAgrees(y.index) && SessionsLive(y) && RunIdsResolve(y.index)
  }

  lemma RegisterSound(y: Server, t: Step)
    requires Sound(y) && t.Register?
    ensures Sound(Next(y, t))
  {}

  lemma LeaveSound(y: Server, t: Step)
    requires Sound(y) && t.Leave?
    ensures Sound(Next(y, t))
  {}

  lemma NextSound(y: Server, t: Step)
    requires Sound(y)
    ensures Sound(Next(y, t))
  {
    match t
    case Register(_, _, _) => RegisterSound(y, t);
    case Leave(_) => LeaveSound(y, t);
    case _ =>
  }

  /** Over every interleaving: a run ID that resolves yields a session that carries it, on a
      connection still served, and the two client indexes agree. */
  lemma {:induction false} RunSound(steps: seq<Step>)
    ensures ConnsMatch(Run(steps)) && SessionsLive(Run(steps))
    ensures InverseAgrees(Run(steps).index) && RunIdsResolve(Run(steps).index)
    decreases |steps|
  {
    if steps != [] {
      RunSound(Init(steps));
      NextSound(Run(Init(steps)), Last(steps));
    }
  }

  /** A resolved run ID belongs to a live session. */
  lemma ResolvedIsLive(steps: seq<Step>, runId: string)
    ensures var y := Run(steps);
            var found := Resolve(y.index, runId);
            && (found.None? <==> runId !in y.index.runIds)
            && (found.Some? ==> found.value.1.runId == runId && found.value.1.conn in y.index.controlConns)
  {
    RunSound(steps);
  }

  /** The client and the connection of the last login that named the run ID. */
  function LastLogin(steps: seq<Step>, runId: string): Option<(string, Conn)>
    decreases |steps|
  {
    if steps == [] then None
    else
      var t := Last(steps);
      if t.Register? && t.runId == runId && Enabled(Run(Init(steps)), t) then Some((t.client, t.conn))
      else LastLogin(Init(steps), runId)
  }

  /** A run ID leads to whoever logged in with it last, or nowhere: to that client, its session and the
      connection it logged in on. */
  lemma {:induction false} ResolvedIsLastLogin(steps: seq<Step>, runId: string)
    ensures var found := Resolve(Run(steps).index, runId);
            found.Some? ==> LastLogin(steps, runId) == Some((found.value.0, found.value.1.conn))
    decreases |steps|
  {
    if steps != [] {
      ResolvedIsLastLogin(Init(steps), runId);
      RunSound(Init(steps));
      ResolveStep(Run(Init(steps)), Last(steps), runId);
    }
  }

  lemma ResolveStep(y: Server, t: Step, runId: string)
    requires Sound(y)
    ensures var before, after := Resolve(y.index, runId), Resolve(Next(y, t).index, runId);
            if t.Register? && t.runId == runId && Enabled(y, t)
            then after == Some((t.client, Session(runId, t.conn))) else after.Some? ==> before == after
  {}

  /** A connection that has been replaced, as the client's connection and in its session, takes
      nothing with it but itself. */
  lemma LateExitIsHarmless(y: Server, conn: Conn, client: string)
    requires Sound(y) && conn in y.phase && y.phase[conn].Serving? && y.phase[conn].client == client
    requires client in y.index.clientControl ==> y.index.clientControl[client] != conn
    requires client in y.index.sessions ==> y.index.sessions[client].conn != conn
    ensures Next(y, Leave(conn)).index ==
            y.index.(controlConns := y.index.controlConns - {conn}, controlClients := y.index.controlClients - {conn})
  {}

  // Shared run IDs.

  /** Every session is found by its run ID. */
  predicate AllResolvable(x: Index) {
    forall c :: c in x.sessions ==> x.sessions[c].runId in x.runIds && x.runIds[x.sessions[c].runId] == c
  }

  /** A login that names the run ID of another client's session. */
  predicate Shares(x: Index, client: string, runId: string) {
    exists c :: c in x.sessions && c != client && x.sessions[c].runId == runId
  }

  /** A registration leaves every session findable exactly if its run ID is not another client's. */
  lemma RegisterResolvable(y: Server, t: Step)
    requires Sound(y) && AllResolvable(y.index) && t.Register? && Enabled(y, t)
    ensures AllResolvable(Next(y, t).index) <==> !Shares(y.index, t.client, t.runId)
  {
    var x, z := y.index, Next(y, t).index;
    if Shares(x, t.client, t.runId) {
      var c :| c in x.sessions && c != t.client && x.sessions[c].runId == t.runId;
      assert c in z.sessions && z.runIds[z.sessions[c].runId] == t.client;
    }
  }

  lemma OthersResolvable(y: Server, t: Step)
    requires Sound(y) && AllResolvable(y.index) && !t.Register?
    ensures AllResolvable(Next(y, t).index)
  {}

  /** At every moment of the run every session is found by its run ID. */
  predicate AlwaysResolvable(steps: seq<Step>)
    decreases |steps|
  {
    AllResolvable(Run(steps).index) && (steps != [] ==> AlwaysResolvable(Init(steps)))
  }

  /** No login of the run names the run ID of another client's session. */
  predicate NeverShares(steps: seq<Step>)
    decreases |steps|
  {
    steps != [] ==>
      var y, t := Run(Init(steps)), Last(steps);
      NeverShares(Init(steps)) && (t.Register? && Enabled(y, t) ==> !Shares(y.index, t.client, t.runId))
  }

  /** Over every interleaving: all sessions can always be found if and only if no login names another
      client's run ID. */
  lemma {:induction false} ResolvableExactly(steps: seq<Step>)
    ensures AlwaysResolvable(steps) <==> NeverShares(steps)
    decreases |steps|
  {
    if steps != [] {
      var y, t := Run(Init(steps)), Last(steps);
      ResolvableExactly(Init(steps));
      RunSound(Init(steps));
      if AlwaysResolvable(Init(steps)) {
        assert AllResolvable(y.index);
        if t.Register? && Enabled(y, t) {
          RegisterResolvable(y, t);
        } else if !t.Register? {
          OthersResolvable(y, t);
        }
      }
    }
  }

  /** When a session ends, the run ID it carries is forgotten, whoever it leads to by then: another
      client's run ID goes exactly if the leaving session carries the same one. */
  lemma LeaveForgets(y: Server, conn: Conn, client: string, runId: string)
    requires Sound(y) && conn in y.phase && y.phase[conn].Serving? && y.phase[conn].client == client
    requires runId in y.index.runIds && y.index.runIds[runId] != client
    ensures runId !in Next(y, Leave(conn)).index.runIds <==>
            client in y.index.sessions && y.index.sessions[client] == Session(runId, conn)
  {}

  // Racing logins.

  /** The connection of an official client has its session, or a login of the client is under way
      that has taken the session over. */
  predicate Backed(y: Server) {
    forall c :: c in y.index.clientControl && y.index.clientControl[c] in y.phase &&
                y.phase[y.index.clientControl[c]] == Serving(c, true) ==>
      c in y.index.sessions &&
      (y.index.sessions[c].conn == y.index.clientControl[c] ||
       (y.index.sessions[c].conn in y.phase && y.phase[y.index.sessions[c].conn].Pending?))
  }

  /** A login is bound after one that registered later: its session is gone already, or held by a
      connection that is being replaced. */
  predicate Overtaken(y: Server, t: Step) {
    && t.Bind? && t.conn in y.phase && y.phase[t.conn] == Pending(t.client)
    && (t.client in y.index.sessions ==>
          y.index.sessions[t.client].conn != t.conn && y.index.sessions[t.client].conn in y.phase &&
          y.phase[y.index.sessions[t.client].conn].Serving?)
  }

  /** A takeover keeps every client served exactly if logins are bound in the order in which they
      registered. */
  lemma TakeoverBacked(y: Server, t: Step)
    requires Sound(y) && Backed(y) && Enabled(y, t)
    ensures Backed(Next(y, t)) <==> !Overtaken(y, t)
  {
    if Overtaken(y, t) {
      assert Next(y, t).index.clientControl[t.client] == t.conn;
    }
  }

  lemma RunAdd(steps: seq<Step>, t: Step)
    ensures Run(steps + [t]) == Next(Run(steps), t)
  {
    Snoc(steps, t);
  }

  const RACE: seq<Step> := [Accept(1), Accept(2), Register(1, "c", "r"), Register(2, "c", "s"), Bind(2, "c")]

  const BOTH_IN: seq<Step> := [Accept(1), Accept(2)]

  lemma BothIn()
    ensures Run(BOTH_IN) == Server(EMPTY.(controlConns := {1, 2}), map[1 := Accepted, 2 := Accepted])
  {
    RunAdd([], Accept(1));
    RunAdd([Accept(1)], Accept(2));
    assert [] + [Accept(1)] == [Accept(1)] && [Accept(1)] + [Accept(2)] == BOTH_IN;
  }

  lemma RaceSoFar()
    ensures Run(RACE) ==
            Server(Index({1, 2}, map[2 := "c"], map["c" := 2], map["c" := Session("s", 2)], map["s" := "c"]),
                   map[1 := Pending("c"), 2 := Serving("c", true)])
  {
    BothIn();
    var first := BOTH_IN + [Register(1, "c", "r")];
    RunAdd(BOTH_IN, Register(1, "c", "r"));
    assert Run(first).index.sessions == map["c" := Session("r", 1)] && Run(first).index.runIds == map["r" := "c"];
    var second := first + [Register(2, "c", "s")];
    RunAdd(first, Register(2, "c", "s"));
    assert Run(second).index.sessions == map["c" := Session("s", 2)] && Run(second).index.runIds == map["s" := "c"];
    RunAdd(second, Bind(2, "c"));
    assert second + [Bind(2, "c")] == RACE;
  }

  /** Registration and binding are two steps: of two logins at once both can lose. The client is
      left with a live connection, no session, and no run ID that resolves. */
  lemma RacingLoginsLoseSession()
    ensures var y := Run(RACE + [Bind(1, "c")] + [Leave(2)]);
            && y.index.clientControl == map["c" := 1] && y.phase == map[1 := Serving("c", true)]
            && y.index.sessions == map[] && y.index.runIds == map[]
  {
    RaceSoFar();
    RunAdd(RACE, Bind(1, "c"));
    RunAdd(RACE + [Bind(1, "c")], Leave(2));
  }
}
