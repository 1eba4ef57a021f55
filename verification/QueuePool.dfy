/** net/actor/queue.go: any number of queues, the mailboxes, event and timer queues of all actors, over the
    one pool of nodes that they share. */
module QueuePool {
  import opened Wrappers
  import opened Transitions
  import opened ActorQueue

  type QueueId = nat

  /** The queues with the memory and the pool in common; each sees them as its own. */
  datatype World = World(mem: map<nat, Node>, pool: set<nat>, queues: map<QueueId, State>)

  datatype Move = Create(q: QueueId, stub: nat) | Access(q: QueueId, a: Step)

  function View(w: World, q: QueueId): State
    requires q in w.queues
  {
    w.queues[q].(mem := w.mem, pool := w.pool)
  }

  predicate MoveEnabled(w: World, x: Move) {
    match x
    case Create(q, stub) => q !in w.queues && stub !in w.mem
    case Access(q, a) => q in w.queues && Enabled(View(w, q), a)
  }

  function Moved(w: World, x: Move): World
    requires MoveEnabled(w, x)
  {
    match x
    case Create(q, stub) =>
      var mem := w.mem[stub := Node(None, None)];
      World(mem, w.pool, w.queues[q := Fresh(stub, mem, w.pool)])
    case Access(q, a) =>
      var t := Next(View(w, q), a);
      World(t.mem, t.pool, w.queues[q := t])
  }

  /** newQueue: a stub node of its own. */
  function Fresh(stub: nat, mem: map<nat, Node>, pool: set<nat>): State {
    State(mem, pool, stub, stub, 0, false, map[], Idle, [stub], [], [])
  }

  /** Node n is in use by the queue: in its chain, with one of its producers or with its consumer. */
  ghost predicate Uses(s: State, n: nat) {
    n in s.chain || (exists p :: Fills(s, p, n)) || (s.consumer.Advanced? && s.consumer.stub == n)
  }

  predicate Fills(s: State, p: nat, n: nat) {
    p in s.producers && s.producers[p].Got? && s.producers[p].node == n
  }

  /** No node is in use by two queues. */
  ghost predicate Apart(s: State, t: State) {
    forall n :: !(Uses(s, n) && Uses(t, n))
  }

  ghost predicate WorldOk(w: World) {
    (forall q | q in w.queues :: Inv(View(w, q))) &&
    forall q, r | q in w.queues && r in w.queues && q != r :: Apart(View(w, q), View(w, r))
  }

  lemma UsedNode(s: State, n: nat)
    requires Inv(s) && Uses(s, n)
    ensures n in s.mem && n !in s.pool
  {
    if n in s.chain {
      var i :| 0 <= i < |s.chain| && s.chain[i] == n;
    } else if exists p :: Fills(s, p, n) {
      var p :| Fills(s, p, n);
    }
  }

  /** What an access leaves of the nodes of others: it takes nodes from the pool or new ones, and
      otherwise changes only its own. */
  lemma Footprint(s: State, a: Step, n: nat)
    requires Inv(s) && Enabled(s, a) && !Uses(s, n) && n in s.mem && n !in s.pool
    ensures var t := Next(s, a);
      n in t.mem && t.mem[n] == s.mem[n] && n !in t.pool && !Uses(t, n)
  {
    var t := Next(s, a);
    if a.Link? {
      var i: nat :| Writes(s, a.p, i) && s.mem[s.chain[i]].next == None;
      assert s.chain[i] in s.chain;
    }
    if a.Swap? { assert Fills(s, a.p, s.producers[a.p].node); }
    if a.Advance? {
      assert s.chain[0] == s.tail && s.chain[1] == s.consumer.next;
      assert s.chain[0] in s.chain && s.chain[1] in s.chain;
    }
    forall p | Fills(t, p, n) ensures Fills(s, p, n) {}
  }

  /** A queue stays in order while others change the memory and the pool but for its own nodes. */
  lemma Undisturbed(s: State, t: State)
    requires Inv(s) && t == s.(mem := t.mem, pool := t.pool) && t.pool <= t.mem.Keys
    requires forall n | Uses(s, n) :: n in t.mem && t.mem[n] == s.mem[n] && n !in t.pool
    ensures Inv(t)
  {
    forall i | 0 <= i < |s.chain| ensures s.chain[i] in t.mem && t.mem[s.chain[i]] == s.mem[s.chain[i]] && s.chain[i] !in t.pool {
      assert s.chain[i] in s.chain;
    }
    forall p | p in s.producers && s.producers[p].Got? ensures Uses(s, s.producers[p].node) {
      assert Fills(s, p, s.producers[p].node);
    }
    UndisturbedChain(s, t);
  }

  lemma UndisturbedChain(s: State, t: State)
    requires ChainOk(s) && t == s.(mem := t.mem, pool := t.pool)
    requires forall i | 0 <= i < |s.chain| :: s.chain[i] in t.mem && t.mem[s.chain[i]] == s.mem[s.chain[i]] && s.chain[i] !in t.pool
    ensures ChainOk(t)
  {
    assert forall p, i :: Writes(t, p, i) <==> Writes(s, p, i);
    forall i | 0 <= i < |t.chain| - 1 ensures LinkOk(t, i) { assert LinkOk(s, i); }
  }

  /** An access to one queue keeps every other in order, and their nodes apart. */
  lemma AccessKeeps(s: State, a: Step, u: State)
    requires Inv(s) && Enabled(s, a) && Inv(u) && Apart(s, u) && u.mem == s.mem && u.pool == s.pool
    ensures var t := Next(s, a); var v := u.(mem := t.mem, pool := t.pool);
      Inv(v) && Apart(t, v) && Apart(v, t)
  {
    var t := Next(s, a);
    var v := u.(mem := t.mem, pool := t.pool);
    StepKeeps(s, a);
    SameUses(u, v);
    forall n | Uses(u, n) ensures n in t.mem && t.mem[n] == u.mem[n] && n !in t.pool && !Uses(t, n) {
      UsedNode(u, n);
      Footprint(s, a, n);
    }
    Undisturbed(u, v);
  }

  lemma SameUses(s: State, t: State)
    requires t == s.(mem := t.mem, pool := t.pool)
    ensures forall n :: Uses(t, n) <==> Uses(s, n)
  {
    forall n ensures Uses(t, n) <==> Uses(s, n) {
      assert forall p :: Fills(t, p, n) <==> Fills(s, p, n);
    }
  }

  lemma StillApart(s: State, t: State, mem: map<nat, Node>, pool: set<nat>)
    requires Apart(s, t)
    ensures Apart(s.(mem := mem, pool := pool), t.(mem := mem, pool := pool))
  {
    SameUses(s, s.(mem := mem, pool := pool));
    SameUses(t, t.(mem := mem, pool := pool));
  }

  /** So does a new queue with a new stub. */
  lemma CreateKeeps(u: State, stub: nat)
    requires Inv(u) && stub !in u.mem
    ensures var mem := u.mem[stub := Node(None, None)];
      var s, v := Fresh(stub, mem, u.pool), u.(mem := mem);
      Inv(v) && Apart(s, v) && Apart(v, s)
  {
    var mem := u.mem[stub := Node(None, None)];
    var v := u.(mem := mem);
    FreshInv(stub, mem, u.pool);
    SameUses(u, v);
    forall n | Uses(u, n) ensures n in u.mem && n !in u.pool && n != stub { UsedNode(u, n); }
    Undisturbed(u, v);
  }

  lemma FreshInv(stub: nat, mem: map<nat, Node>, pool: set<nat>)
    requires stub in mem && mem[stub] == Node(None, None) && stub !in pool && pool <= mem.Keys
    ensures Inv(Fresh(stub, mem, pool)) && forall n :: Uses(Fresh(stub, mem, pool), n) ==> n == stub
  {
    var s := Fresh(stub, mem, pool);
    assert Uncounted(s.producers) == {};
    forall n ensures Uses(s, n) ==> n == stub { assert forall p :: !Fills(s, p, n); }
  }

  // ----- whole runs

  ghost predicate WorldInv(w: World) {
    WorldOk(w) && w.pool <= w.mem.Keys
  }

  predicate MoveTo(w: World, x: Move, v: World) {
    MoveEnabled(w, x) && Moved(w, x) == v
  }

  lemma MoveKeeps(w: World, x: Move)
    requires WorldInv(w) && MoveEnabled(w, x)
    ensures WorldInv(Moved(w, x))
  {
    var v := Moved(w, x);
    OwnKeeps(w, x);
    forall q | q in v.queues ensures Inv(View(v, q)) { if q != x.q { OtherKeeps(w, x, q); } }
    forall q, r | q in v.queues && r in v.queues && q != r ensures Apart(View(v, q), View(v, r)) { PairKeeps(w, x, q, r); }
  }

  lemma OwnKeeps(w: World, x: Move)
    requires WorldInv(w) && MoveEnabled(w, x)
    ensures var v := Moved(w, x); x.q in v.queues && Inv(View(v, x.q)) && v.pool <= v.mem.Keys
  {
    var v := Moved(w, x);
    match x
    case Create(q, stub) => FreshInv(stub, v.mem, v.pool);
    case Access(q, a) =>
      StepKeeps(View(w, q), a);
      assert View(v, q) == Next(View(w, q), a);
  }

  lemma PairKeeps(w: World, x: Move, q: QueueId, r: QueueId)
    requires WorldInv(w) && MoveEnabled(w, x) && q in Moved(w, x).queues && r in Moved(w, x).queues && q != r
    ensures Apart(View(Moved(w, x), q), View(Moved(w, x), r))
  {
    var v := Moved(w, x);
    if q == x.q {
      OtherKeeps(w, x, r);
    } else if r == x.q {
      OtherKeeps(w, x, q);
    } else {
      assert Apart(View(w, q), View(w, r));
      StillApart(View(w, q), View(w, r), v.mem, v.pool);
    }
  }

  lemma OtherKeeps(w: World, x: Move, r: QueueId)
    requires WorldInv(w) && MoveEnabled(w, x) && r in w.queues && r != x.q
    ensures var v := Moved(w, x);
      r in v.queues && Inv(View(v, r)) && Apart(View(v, x.q), View(v, r)) && Apart(View(v, r), View(v, x.q))
  {
    var u := View(w, r);
    assert Inv(u);
    if x.Access? {
      var s := View(w, x.q);
      assert Inv(s) && Apart(s, u);
      AccessKeeps(s, x.a, u);
      AccessViews(w, x, r);
    } else {
      CreateKeeps(u, x.stub);
      CreateViews(w, x, r);
    }
  }

  lemma AccessViews(w: World, x: Move, r: QueueId)
    requires x.Access? && MoveEnabled(w, x) && r in w.queues && r != x.q
    ensures var v, t := Moved(w, x), Next(View(w, x.q), x.a);
      r in v.queues && x.q in v.queues && View(v, x.q) == t && View(v, r) == View(w, r).(mem := t.mem, pool := t.pool)
  {}

  lemma CreateViews(w: World, x: Move, r: QueueId)
    requires x.Create? && MoveEnabled(w, x) && r in w.queues && r != x.q
    ensures var v, mem := Moved(w, x), w.mem[x.stub := Node(None, None)];
      r in v.queues && x.q in v.queues && View(v, x.q) == Fresh(x.stub, mem, w.pool) && View(v, r) == View(w, r).(mem := mem)
  {}

  ghost predicate InReach(w: World) {
    exists moves :: Leads(MoveTo, World(map[], {}, map[]), moves, w)
  }

  lemma InReachInv(w: World)
    requires InReach(w)
    ensures WorldInv(w)
  {
    var moves :| Leads(MoveTo, World(map[], {}, map[]), moves, w);
    forall u, x, v | WorldInv(u) && MoveTo(u, x, v) ensures WorldInv(v) { MoveKeeps(u, x); }
    Keeps(MoveTo, WorldInv, World(map[], {}, map[]), moves, w);
  }

  /** Whatever the other queues do with the common pool, every queue is first in, first out, recycles
      safely and loses no wake-up. */
  lemma EveryQueue(w: World, q: QueueId)
    requires InReach(w) && q in w.queues
    ensures var s := View(w, q); InOrder(s) && RecyclesSafely(s) && Awake(s)
  {
    InReachInv(w);
    OrderKept(View(w, q));
    RecyclingKept(View(w, q));
    AwakeKept(View(w, q));
  }

  /** actor.go, `loop`: a stopping actor leaves only with its mailbox and its event queue empty, and
      otherwise its select does not block. */
  predicate LoopExits(mail: State, event: State) {
    mail.count < 1 && event.count < 1
  }

  lemma StoppingActorDrains(w: World, m: QueueId, e: QueueId)
    requires InReach(w) && m in w.queues && e in w.queues && AtRest(View(w, m)) && AtRest(View(w, e))
    ensures var mail, event := View(w, m), View(w, e);
      (LoopExits(mail, event) <==> mail.popped == mail.pushed && event.popped == event.pushed) &&
      (!LoopExits(mail, event) ==> Enabled(mail, Take) || Enabled(event, Take))
  {
    EveryQueue(w, m);
    EveryQueue(w, e);
  }

  /** The node that a producer of one queue is about to write, its own or its predecessor, is neither in
      the pool nor in use by any other queue. */
  lemma NoStrayWrites(w: World, q: QueueId, r: QueueId, p: nat)
    requires InReach(w) && q in w.queues && r in w.queues && q != r && p in w.queues[q].producers
    ensures var x := w.queues[q].producers[p];
      (x.Got? ==> x.node !in w.pool && !Uses(View(w, r), x.node)) &&
      (x.Swapped? ==> x.prev !in w.pool && !Uses(View(w, r), x.prev) && !Uses(View(w, r), x.node))
  {
    InReachInv(w);
    var s, x := View(w, q), w.queues[q].producers[p];
    assert Apart(s, View(w, r));
    if x.Got? {
      assert Fills(s, p, x.node);
    } else if x.Swapped? {
      var i: nat :| Writes(s, p, i) && s.mem[s.chain[i]].next == None;
      assert s.chain[i] in s.chain && s.chain[i + 1] in s.chain;
    }
  }
}
