/** The values of net/parser/connection_manager.go: connections by ID, and the UID index that has
    to agree with the sessions of those connections. */
module ConnectionIndex {
  import opened Wrappers

  datatype Session = Session(uid: int, data: map<string, string>)

  datatype BindResult = Bound | NotPositive | NotFound | AlreadyBound

  datatype Index = Index(sessions: map<string, Session>, byUID: map<int, string>)

  datatype Op = Add(id: string, session: Session) | Remove(id: string) | Bind(id: string, uid: int, data: map<string, string>)

  /** A map lookup that yields the empty string for a missing key. */
  function Lookup(byUID: map<int, string>, uid: int): string {
    if uid in byUID then byUID[uid] else ""
  }

  function Added(x: Index, id: string, session: Session): Index {
    x.(sessions := x.sessions[id := session])
  }

  function Removed(x: Index, id: string): Index {
    var uid := if id in x.sessions then x.sessions[id].uid else 0;
    Index(x.sessions - {id}, if uid > 0 && Lookup(x.byUID, uid) == id then x.byUID - {uid} else x.byUID)
  }

  function BindOutcome(x: Index, id: string, uid: int): BindResult {
    if uid <= 0 then NotPositive
    else if id !in x.sessions then NotFound
    else if Lookup(x.byUID, uid) != "" && Lookup(x.byUID, uid) != id then AlreadyBound
    else Bound
  }

  function AfterBind(x: Index, id: string, uid: int, data: map<string, string>): Index {
    if BindOutcome(x, id, uid) != Bound then x
    else
      var old' := x.sessions[id].uid;
      var rest := if old' > 0 && Lookup(x.byUID, old') == id then x.byUID - {old'} else x.byUID;
      Index(x.sessions[id := Session(uid, data)], rest[uid := id])
  }

  function Found(x: Index, uid: int): Option<string> {
    if uid in x.byUID && x.byUID[uid] in x.sessions then Some(x.byUID[uid]) else None
  }

  /** The UID index says of every UID exactly which connection is bound to it. */
  predicate Agrees(x: Index) {
    (forall u | u in x.byUID :: u > 0 && x.byUID[u] in x.sessions && x.sessions[x.byUID[u]].uid == u) &&
    (forall id | id in x.sessions && x.sessions[id].uid > 0 ::
       x.sessions[id].uid in x.byUID && x.byUID[x.sessions[id].uid] == id)
  }

  /** Agreement, read from outside: GetUID(u) finds the one connection that is bound to u. */
  lemma FoundIff(x: Index, u: int, id: string)
    requires Agrees(x)
    ensures Found(x, u) == Some(id) <==> u > 0 && id in x.sessions && x.sessions[id].uid == u
  {}

  lemma FoundNone(x: Index, u: int)
    requires Agrees(x)
    ensures Found(x, u) == None <==> u <= 0 || forall id | id in x.sessions :: x.sessions[id].uid != u
  {
    if u > 0 && Found(x, u) == None {
      forall id | id in x.sessions ensures x.sessions[id].uid != u { FoundIff(x, u, id); }
    }
  }

  lemma RemoveAgrees(x: Index, id: string)
    requires Agrees(x)
    ensures var y := Removed(x, id); Agrees(y) && id !in y.sessions && forall other | other != id ::
      (other in y.sessions <==> other in x.sessions) && (other in x.sessions ==> y.sessions[other] == x.sessions[other])
  {}

  /** The UID a connection takes in the index, 0 for none. */
  function Claim(sessions: map<string, Session>, id: string): int {
    if id in sessions && sessions[id].uid > 0 then sessions[id].uid else 0
  }

  /** Add does not look at the UID index. The index still agrees exactly if the new connection has
      the UID of the connection whose ID it takes, if any, and otherwise none. */
  lemma AddAgreesIff(x: Index, id: string, session: Session)
    requires Agrees(x)
    ensures Agrees(Added(x, id, session)) <==> (if session.uid > 0 then session.uid else 0) == Claim(x.sessions, id)
  {
    var y := Added(x, id, session);
    assert y.sessions[id] == session;
    if Claim(x.sessions, id) > 0 {
      assert x.byUID[Claim(x.sessions, id)] == id;
    }
  }

  /** The run that shows it: connection "a" keeps its UID when it is removed, so that adding it again,
      after "b" has been bound to that UID, leaves two live connections with one UID. */
  lemma AddBreaks()
    ensures var steps := [Add("a", Session(0, map[])), Bind("a", 7, map[]), Remove("a"),
                          Add("b", Session(0, map[])), Bind("b", 7, map[])];
      var x := Run(Index(map[], map[]), steps);
      AllAllowed(Index(map[], map[]), steps) && Agrees(x) && x.byUID == map[7 := "b"] &&
      var y := Added(x, "a", Session(7, map[]));
      !Agrees(y) && Found(y, 7) == Some("b") && y.sessions["a"].uid == 7
  {
    var a, b := Add("a", Session(0, map[])), Add("b", Session(0, map[]));
    var bindA, bindB := Bind("a", 7, map[]), Bind("b", 7, map[]);
    var x0 := Index(map[], map[]);
    var x1 := Index(map["a" := Session(0, map[])], map[]);
    var x2 := Index(map["a" := Session(7, map[])], map[7 := "a"]);
    var x3 := Index(map["b" := Session(0, map[])], map[]);
    var x4 := Index(map["b" := Session(7, map[])], map[7 := "b"]);
    assert Do(x0, a) == x1 && Do(x1, bindA) == x2 && Do(x2, Remove("a")) == x0 && Do(x0, b) == x3 && Do(x3, bindB) == x4;
    RunCons(x3, bindB, []);
    RunCons(x0, b, [bindB]);
    RunCons(x2, Remove("a"), [b, bindB]);
    RunCons(x1, bindA, [Remove("a"), b, bindB]);
    RunCons(x0, a, [bindA, Remove("a"), b, bindB]);
    assert Added(x4, "a", Session(7, map[])).sessions["a"].uid == 7;
  }

  lemma RunCons(x: Index, op: Op, rest: seq<Op>)
    ensures Run(x, [op] + rest) == Run(Do(x, op), rest)
    ensures AllAllowed(x, [op] + rest) <==> Allowed(x, op) && AllAllowed(Do(x, op), rest)
  {
    assert ([op] + rest)[1..] == rest;
  }

  /** Bind reads the empty ID as "not bound". The index still agrees exactly if the UID is not taken
      from a connection whose ID is empty. */
  lemma BindAgreesIff(x: Index, id: string, uid: int, data: map<string, string>)
    requires Agrees(x)
    ensures Agrees(AfterBind(x, id, uid, data)) <==>
      !(id in x.sessions && id != "" && uid in x.byUID && x.byUID[uid] == "")
  {
    var y := AfterBind(x, id, uid, data);
    if BindOutcome(x, id, uid) == Bound {
      assert y.sessions[id].uid == uid && y.byUID[uid] == id;
      if uid in x.byUID && x.byUID[uid] == "" && id != "" {
        assert y.sessions[""].uid == uid;
      } else {
        assert uid in x.byUID ==> x.byUID[uid] == id;
      }
    }
  }

  /** No run of the manager gets there: the IDs of connections are never empty, and so Bind always
      keeps the index in agreement. */
  lemma BindAgrees(ops: seq<Op>, id: string, uid: int, data: map<string, string>)
    requires AllAllowed(Index(map[], map[]), ops)
    ensures Agrees(AfterBind(Run(Index(map[], map[]), ops), id, uid, data))
  {
    RunsAgree(Index(map[], map[]), ops);
    BindAgreesIff(Run(Index(map[], map[]), ops), id, uid, data);
  }

  /** Another live connection has the UID. */
  predicate Held(sessions: map<string, Session>, id: string, uid: int) {
    exists other | other in sessions && other != id :: sessions[other].uid == uid
  }

  /** What Bind answers, read off the sessions alone: a connection may always take a UID, or change to it,
      unless another live connection has it. A refusal changes nothing. */
  lemma BindIff(x: Index, id: string, uid: int, data: map<string, string>)
    requires Agrees(x) && "" !in x.sessions
    ensures var r, y := BindOutcome(x, id, uid), AfterBind(x, id, uid, data);
      && (r == NotPositive <==> uid <= 0)
      && (r == NotFound <==> uid > 0 && id !in x.sessions)
      && (r == AlreadyBound <==> uid > 0 && id in x.sessions && Held(x.sessions, id, uid))
      && (r == Bound <==> uid > 0 && id in x.sessions && !Held(x.sessions, id, uid))
      && (if r == Bound then y.sessions == x.sessions[id := Session(uid, data)] else y == x)
  {
    if uid > 0 && id in x.sessions && Held(x.sessions, id, uid) {
      var other :| other in x.sessions && other != id && x.sessions[other].uid == uid;
      assert x.byUID[uid] == other;
    }
  }

  /** A bound UID finds its connection, and the UID it had before finds none. */
  lemma RebindMoves(x: Index, id: string, uid: int, data: map<string, string>)
    requires Agrees(x) && "" !in x.sessions && uid > 0 && id in x.sessions && !Held(x.sessions, id, uid)
    ensures var y := AfterBind(x, id, uid, data);
      Found(y, uid) == Some(id) && y.sessions[id] == Session(uid, data) &&
      (x.sessions[id].uid > 0 && x.sessions[id].uid != uid ==> Found(y, x.sessions[id].uid) == None) &&
      forall u | u != uid && u != x.sessions[id].uid :: Found(y, u) == Found(x, u)
  {
    BindIff(x, id, uid, data);
    BindAgreesIff(x, id, uid, data);
    var y := AfterBind(x, id, uid, data);
    FoundIff(y, uid, id);
    forall u | u != uid && u != x.sessions[id].uid ensures Found(y, u) == Found(x, u) {
      assert u in y.byUID <==> u in x.byUID;
    }
  }

  /** Connections come with an ID that is fresh and not empty, and unbound. */
  predicate Allowed(x: Index, op: Op) {
    op.Add? ==> op.id != "" && op.id !in x.sessions && op.session.uid <= 0
  }

  function Do(x: Index, op: Op): Index {
    match op
    case Add(id, session) => Added(x, id, session)
    case Remove(id) => Removed(x, id)
    case Bind(id, uid, data) => AfterBind(x, id, uid, data)
  }

  predicate AllAllowed(x: Index, ops: seq<Op>)
    decreases |ops|
  {
    ops == [] || (Allowed(x, ops[0]) && AllAllowed(Do(x, ops[0]), ops[1..]))
  }

  function Run(x: Index, ops: seq<Op>): Index
    decreases |ops|
  {
    if ops == [] then x else Run(Do(x, ops[0]), ops[1..])
  }

  /** After any run the index is a one-to-one map onto the connections that are bound. */
  lemma {:induction false} RunsAgree(x: Index, ops: seq<Op>)
    requires Agrees(x) && "" !in x.sessions && AllAllowed(x, ops)
    ensures Agrees(Run(x, ops)) && "" !in Run(x, ops).sessions
    decreases |ops|
  {
    if ops != [] {
      match ops[0] {
        case Add(id, session) => AddAgreesIff(x, id, session);
        case Remove(id) => RemoveAgrees(x, id);
        case Bind(id, uid, data) => BindAgreesIff(x, id, uid, data);
      }
      RunsAgree(Do(x, ops[0]), ops[1..]);
    }
  }
}

/** net/parser/connection_manager.go, and of net/parser/connection.go the session. */
module ConnectionManagers {
  import opened ConnectionIndex
  import opened Wrappers

  class Connection {
    const id: string
    var uid: int
    var data: map<string, string>

    constructor (id: string)
      ensures this.id == id && uid == 0 && data == map[]
    {
      this.id, uid, data := id, 0, map[];
    }

    method Bind(uid: int, data: map<string, string>)
      modifies this
      ensures this.uid == uid && this.data == data
    {
      this.uid, this.data := uid, data;
    }
  }

  class ConnectionManager {
    var connections: map<string, Connection>
    var byUID: map<int, string>

    constructor ()
      ensures Valid() && Model() == Index(map[], map[])
    {
      connections, byUID := map[], map[];
    }

    ghost predicate Valid()
      reads this
    {
      forall id | id in connections :: connections[id].id == id
    }

    ghost function Model(): Index
      reads this, connections.Values
    {
      Index(map id | id in connections :: Session(connections[id].uid, connections[id].data), byUID)
    }

    method Add(connection: Connection?)
      requires Valid()
      modifies this
      ensures Valid() && connections == if connection == null then old(connections) else old(connections)[connection.id := connection]
      ensures Model() == if connection == null then old(Model())
                         else Added(old(Model()), connection.id, Session(connection.uid, connection.data))
    {
      if connection != null {
        connections := connections[connection.id := connection];
      }
    }

    method Remove(id: string)
      requires Valid()
      modifies this
      ensures Valid() && connections == old(connections) - {id} && Model() == Removed(old(Model()), id)
    {
      var found := id in connections;
      var uid := if found then connections[id].uid else 0;
      connections := connections - {id};
      if found && uid > 0 && Lookup(byUID, uid) == id {
        byUID := byUID - {uid};
      }
    }

    method Get(id: string) returns (connection: Connection?)
      requires Valid()
      ensures connection == null <==> id !in connections
      ensures connection != null ==> connection == connections[id] && connection.id == id
    {
      connection := if id in connections then connections[id] else null;
    }

    /** With an index that agrees: the only live connection bound to uid, or none. */
    method GetUID(uid: int) returns (connection: Connection?)
      requires Valid()
      ensures connection == null <==> Found(Model(), uid) == None
      ensures connection != null ==> connection in connections.Values && Found(Model(), uid) == Some(connection.id)
      ensures Agrees(Model()) && uid > 0 ==> forall c | c in connections.Values :: c == connection <==> c.uid == uid
    {
      ghost var m := Model();
      assert forall c | c in connections.Values :: c.id in m.sessions && connections[c.id] == c && m.sessions[c.id].uid == c.uid;
      connection := null;
      if uid in byUID && byUID[uid] in connections {
        connection := connections[byUID[uid]];
      }
    }

    /** A refused binding changes nothing. With an index that agrees it is refused exactly for want of a
        positive UID, of the connection, or because another live connection has the UID. */
    method Bind(id: string, uid: int, data: map<string, string>) returns (r: BindResult)
      requires Valid()
      modifies this`byUID, connections.Values
      ensures Valid() && r == BindOutcome(old(Model()), id, uid)
      ensures Model() == AfterBind(old(Model()), id, uid, data)
      ensures old(Agrees(Model())) && "" !in connections ==>
        && (r == Bound <==> uid > 0 && id in connections && forall c | c in connections.Values && c.id != id :: old(c.uid) != uid)
        && (r == AlreadyBound <==> uid > 0 && id in connections && exists c | c in connections.Values && c.id != id :: old(c.uid) == uid)
      ensures r == Bound ==> connections[id].uid == uid && connections[id].data == data
    {
      SessionsHeld(id, uid);
      ghost var m := Model();
      if Agrees(m) && "" !in connections { BindIff(m, id, uid, data); }
      if uid <= 0 { return NotPositive; }
      if id !in connections { return NotFound; }
      var connection := connections[id];
      var existing := Lookup(byUID, uid);
      if existing != "" && existing != id { return AlreadyBound; }
      Rebind(connection, uid, data);
      r := Bound;
    }

    lemma SessionsHeld(id: string, uid: int)
      requires Valid()
      ensures Held(Model().sessions, id, uid) <==> exists c | c in connections.Values && c.id != id :: c.uid == uid
    {
      var m := Model().sessions;
      if Held(m, id, uid) {
        var other :| other in m && other != id && m[other].uid == uid;
        assert connections[other] in connections.Values;
      }
      if c :| c in connections.Values && c.id != id && c.uid == uid {
        var other :| other in connections && connections[other] == c;
        assert other in m && m[other].uid == uid;
      }
    }

    /** The binding itself: the old UID is given up, session and index get the new one. */
    method Rebind(connection: Connection, uid: int, data: map<string, string>)
      requires Valid() && connection in connections.Values && BindOutcome(Model(), connection.id, uid) == Bound
      modifies this`byUID, connection
      ensures Valid() && Model() == AfterBind(old(Model()), connection.id, uid, data)
    {
      var id := connection.id;
      var oldUID := connection.uid;
      if oldUID > 0 && Lookup(byUID, oldUID) == id {
        byUID := byUID - {oldUID};
      }
      connection.Bind(uid, data);
      byUID := byUID[uid := id];
      assert Model().sessions == old(Model()).sessions[id := Session(uid, data)];
    }
  }
}
