/** net/actor/queue.go on real nodes: every atomic or private access of Push and Pop is a method
    that updates nodes and fields in place, and is a step of ActorQueue. */
module Queues {
  import opened ActorQueue
  import opened Wrappers

  /** What a Push that nobody interrupts does: its value is added, and no trace of the call is left. */
  ghost predicate Pushed(s: State, t: State, v: int) {
    t.pushed == s.pushed + [v] && t.popped == s.popped && t.producers == s.producers && t.consumer == s.consumer &&
    t.count == s.count + 1 && t.full == (s.full || t.count > 0)
  }

  /** Get, Swap and Link in one go. */
  ghost predicate Inserts(s: State, t: State, p: nat, a: nat, v: int) {
    Enabled(s, Get(p, a, v)) &&
    var s1 := Next(s, Get(p, a, v));
    var s2 := Next(s1, Swap(p));
    Enabled(s2, Link(p)) && t == Next(s2, Link(p))
  }

  /** Add and Notify in one go. */
  ghost function Announced(s: State, p: nat): State
    requires Enabled(s, Add(p))
  {
    Next(Next(s, Add(p)), Notify(p))
  }

  lemma PushRun(s: State, m: State, t: State, p: nat, a: nat, v: int)
    requires Inserts(s, m, p, a, v) && Enabled(m, Add(p)) && t == Announced(m, p)
    ensures Pushed(s, t, v)
  {}

  /** The same for a Pop that finds a value. */
  ghost predicate Popped(s: State, t: State, v: int) {
    |s.popped| < |s.pushed| && v == s.pushed[|s.popped|] && t.popped == s.popped + [v] &&
    t.pushed == s.pushed && t.producers == s.producers && t.consumer.Idle? &&
    t.count == s.count - 1 && t.full == (s.full || t.count > 0)
  }

  lemma PopRun(s: State, t: State, v: int)
    requires Reachable(s) && Enabled(s, Load) && Enabled(Next(s, Load), Advance)
    requires (var s2 := Next(Next(s, Load), Advance);
              s2.popped == s.popped + [v] && Enabled(s2, Recycle) && t == Next(Next(Next(s2, Recycle), Subtract), Renotify))
    ensures Popped(s, t, v)
  {
    var s1 := Next(s, Load);
    ReachedOneMore(s, Load);
    LoadedValue(s1);
    assert s.popped + [v] == s.popped + [s1.mem[s1.consumer.next].val.value];
    assert (s.popped + [v])[|s.popped|] == v;
    PutBack(Next(s1, Advance), t);
  }

  /** The end of a Pop. */
  lemma PutBack(s: State, t: State)
    requires Enabled(s, Recycle) && t == Next(Next(Next(s, Recycle), Subtract), Renotify)
    ensures t == s.(mem := t.mem, pool := t.pool, count := s.count - 1, full := s.full || s.count > 1, consumer := Idle)
  {}

  /** The node the consumer has loaded holds the oldest value. */
  lemma LoadedValue(s: State)
    requires Reachable(s) && s.consumer.Loaded?
    ensures Enabled(s, Step.Advance) && |s.popped| < |s.pushed|
    ensures s.mem[s.consumer.next].val == Some(s.pushed[|s.popped|])
  {
    ReachableInv(s);
    assert s.chain[1] == s.consumer.next;
  }

  ghost predicate Empty(s: State) {
    s.popped == s.pushed
  }

  /** p has swapped in the node after tail and will link it. */
  ghost predicate Linking(s: State, p: nat) {
    p in s.producers && s.producers[p].Swapped? && s.producers[p].prev == s.tail
  }

  lemma NothingLinked(s: State)
    requires Reachable(s)
    ensures s.tail in s.mem && (s.mem[s.tail].next.None? ==> Empty(s) || exists p :: Linking(s, p))
  {
    Fifo(s);
    if s.mem[s.tail].next.None? && |s.popped| < |s.pushed| {
      var p :| p in s.producers && s.producers[p].Swapped? && s.producers[p].prev == s.tail;
      assert Linking(s, p);
    }
  }

  /** The pool holds nodes that there are. */
  lemma PoolInUse(s: State, a: nat)
    requires Reachable(s) && a !in s.mem
    ensures a !in s.pool
  {
    ReachableInv(s);
  }

  /** The stub that the consumer is about to recycle is not in the pool, and will not be tail. */
  lemma StubOut(s: State)
    requires Reachable(s) && s.consumer.Advanced?
    ensures Enabled(s, Step.Recycle) && s.consumer.stub !in s.pool
  {
    ReachableInv(s);
  }

  /** The predecessor a producer is about to write is another node than its own. */
  lemma LinkEnabled(s: State, p: nat)
    requires Reachable(s) && p in s.producers && s.producers[p].Swapped?
    ensures Enabled(s, Step.Link(p))
  {
    ReachableInv(s);
    var i: nat :| Writes(s, p, i) && s.mem[s.chain[i]].next == None;
  }

  class QueueNode {
    var next: QueueNode?
    var val: Option<int>

    constructor ()
      ensures next == null && val == None
    {
      next, val := null, None;
    }
  }

  class Queue {
    var head: QueueNode
    var tail: QueueNode
    var count: int
    var full: bool           // the one-slot channel C holds a value
    var pool: seq<QueueNode> // queueNodePool

    ghost var nodes: seq<QueueNode>  // every node, by the address it has in the model
    ghost var free: seq<nat>         // the addresses of the nodes in pool
    ghost var model: State

    ghost predicate NodeOk(i: nat)
      requires i < |nodes| && i in model.mem
      reads this, nodes[i]
    {
      var x := model.mem[i];
      nodes[i].val == x.val &&
      match x.next { case None => nodes[i].next == null case Some(j) => j < |nodes| && nodes[i].next == nodes[j] }
    }

    ghost predicate NodesOk()
      reads this, nodes
    {
      (forall i, j | 0 <= i < j < |nodes| :: nodes[i] != nodes[j]) &&
      (forall i: nat :: i in model.mem <==> i < |nodes|) && forall i: nat | i < |nodes| :: NodeOk(i)
    }

    ghost predicate FieldsOk()
      reads this
    {
      model.head < |nodes| && nodes[model.head] == head && model.tail < |nodes| && nodes[model.tail] == tail &&
      count == model.count && full == model.full &&
      |free| == |pool| && (forall k | 0 <= k < |pool| :: free[k] in model.pool && free[k] < |nodes| && nodes[free[k]] == pool[k]) &&
      forall i, j | 0 <= i < j < |free| :: free[i] != free[j]
    }

    ghost predicate Valid()
      reads this, nodes
    {
      NodesOk() && FieldsOk() && Reachable(model)
    }

    /** Old nodes stay where they are, and those that were added are new. */
    twostate predicate Grown()
      reads this
    {
      |old(nodes)| <= |nodes| &&
      forall i | 0 <= i < |nodes| :: var x := nodes[i]; if i < |old(nodes)| then x == old(nodes)[i] else !old(allocated(x))
    }

    /** The node has address a. */
    ghost predicate Is(n: QueueNode, a: nat)
      reads this
    {
      a < |nodes| && nodes[a] == n
    }

    constructor ()
      ensures Valid() && model == INIT && fresh(nodes)
    {
      var stub := new QueueNode();
      head, tail, count, full, pool := stub, stub, 0, false, [];
      nodes, free, model := [stub], [], INIT;
      new;
      assert Runs(INIT, [], INIT);
    }

    // ----- Push, access by access; p names the call

    /** A node from the pool or a new one, filled. */
    method Get(ghost p: nat, v: int) returns (n: QueueNode, ghost a: nat)
      requires Valid() && p !in model.producers
      modifies this, nodes
      ensures Valid() && Is(n, a) && Enabled(old(model), Step.Get(p, a, v)) && model == Next(old(model), Step.Get(p, a, v))
      ensures Grown()
    {
      if pool != [] { n, a := GetPooled(p, v); } else { n, a := GetNew(p, v); }
    }

    method GetPooled(ghost p: nat, v: int) returns (n: QueueNode, ghost a: nat)
      requires Valid() && p !in model.producers && pool != []
      modifies this, nodes
      ensures Valid() && Is(n, a) && Enabled(old(model), Step.Get(p, a, v)) && model == Next(old(model), Step.Get(p, a, v))
      ensures Grown()
    {
      n, a := pool[|pool| - 1], free[|pool| - 1];
      assert NodeOk(a);
      pool, free := pool[..|pool| - 1], free[..|pool| - 1];
      n.val := Some(v);
      n.next := null;
      Do(Step.Get(p, a, v), model.(mem := model.mem[a := Node(None, Some(v))], pool := model.pool - {a},
                                   producers := model.producers[p := Got(a, v)]));
      OneNode(a);
    }

    method GetNew(ghost p: nat, v: int) returns (n: QueueNode, ghost a: nat)
      requires Valid() && p !in model.producers
      modifies this, nodes
      ensures Valid() && Is(n, a) && Enabled(old(model), Step.Get(p, a, v)) && model == Next(old(model), Step.Get(p, a, v))
      ensures Grown()
    {
      n := new QueueNode();
      a := |nodes|;
      n.val := Some(v);
      n.next := null;
      nodes := nodes + [n];
      PoolInUse(model, a);
      Do(Step.Get(p, a, v), model.(mem := model.mem[a := Node(None, Some(v))], pool := model.pool - {a},
                                   producers := model.producers[p := Got(a, v)]));
      NewNode(n);
    }

    ghost method Do(x: Step, t: State)
      requires Reachable(model) && StepTo(model, x, t)
      modifies this`model
      ensures Reachable(model) && model == t
    {
      ReachedOneMore(model, x);
      model := t;
    }

    twostate lemma NewNode(new n: QueueNode)
      requires old(NodesOk()) && nodes == old(nodes) + [n] && n !in old(nodes)
      requires forall i | 0 <= i < |old(nodes)| :: unchanged(old(nodes)[i])
      requires model.mem == old(model).mem[|old(nodes)| := Node(None, n.val)] && n.next == null
      ensures NodesOk()
    {
      forall i: nat | i < |nodes| ensures NodeOk(i) {
        if i < |old(nodes)| { assert old(NodeOk(i)); }
      }
    }

    /** SwapPointer on head. */
    method Swap(ghost p: nat, n: QueueNode) returns (prev: QueueNode)
      requires Valid() && Enabled(model, Step.Swap(p)) && Is(n, model.producers[p].node)
      modifies this`head, this`model
      ensures Valid() && model == Next(old(model), Step.Swap(p)) && Is(prev, model.producers[p].prev) && Is(n, model.producers[p].node)
    {
      prev := head;
      head := n;
      Do(Step.Swap(p), Next(model, Step.Swap(p)));
      SameNodes();
    }

    /** StorePointer to prev.next. */
    method Link(ghost p: nat, n: QueueNode, prev: QueueNode)
      requires Valid() && p in model.producers && model.producers[p].Swapped?
      requires Is(n, model.producers[p].node) && Is(prev, model.producers[p].prev)
      modifies this`model, prev
      ensures Valid() && Enabled(old(model), Step.Link(p)) && model == Next(old(model), Step.Link(p))
    {
      LinkEnabled(model, p);
      ghost var a := model.producers[p].prev;
      assert NodeOk(a);
      prev.next := n;
      Do(Step.Link(p), Next(model, Step.Link(p)));
      OneNode(a);
    }

    method AddOne(ghost p: nat) returns (c: int)
      requires Valid() && Enabled(model, Step.Add(p))
      modifies this`count, this`model
      ensures Valid() && model == Next(old(model), Step.Add(p)) && model.producers[p] == Counted(c)
    {
      count := count + 1;
      c := count;
      Do(Step.Add(p), Next(model, Step.Add(p)));
      SameNodes();
    }

    /** The non-blocking send to C. */
    method Notify(ghost p: nat, c: int)
      requires Valid() && p in model.producers && model.producers[p] == Counted(c)
      modifies this`full, this`model
      ensures Valid() && model == Next(old(model), Step.Notify(p))
    {
      if c > 0 { full := true; }
      Do(Step.Notify(p), Next(model, Step.Notify(p)));
      SameNodes();
    }

    /** Nodes keep agreeing with the model if only the one at address a has changed, and does. */
    twostate lemma OneNode(a: nat)
      requires old(NodesOk()) && old(nodes) == nodes && a < |nodes| && a in model.mem && NodeOk(a)
      requires forall i | 0 <= i < |nodes| && i != a :: unchanged(nodes[i])
      requires old(model).mem.Keys == model.mem.Keys && forall i | i in model.mem && i != a :: model.mem[i] == old(model).mem[i]
      ensures NodesOk()
    {
      forall i: nat | i < |nodes| ensures NodeOk(i) { assert old(NodeOk(i)); }
    }

    /** And if neither nodes nor the model's memory have changed. */
    twostate lemma SameNodes()
      requires old(NodesOk()) && old(nodes) == nodes && old(model).mem == model.mem
      requires forall n | n in nodes :: unchanged(n)
      ensures NodesOk()
    {
      forall i: nat | i < |nodes| ensures NodeOk(i) { assert nodes[i] in nodes && old(NodeOk(i)); }
    }

    method Push(ghost p: nat, v: int)
      requires Valid() && p !in model.producers
      modifies this, nodes
      ensures Valid() && Pushed(old(model), model, v) && Grown()
    {
      ghost var s := model;
      ghost var a := Insert(p, v);
      ghost var m := model;
      Announce(p);
      PushRun(s, m, model, p, a, v);
    }

    /** The node and its place in the queue. */
    method Insert(ghost p: nat, v: int) returns (ghost a: nat)
      requires Valid() && p !in model.producers
      modifies this, nodes
      ensures Valid() && Grown() && Inserts(old(model), model, p, a, v)
    {
      var n;
      n, a := Get(p, v);
      var prev := Swap(p, n);
      assert prev in nodes;
      Link(p, n, prev);
    }

    /** The count and the token. */
    method Announce(ghost p: nat)
      requires Valid() && Enabled(model, Step.Add(p))
      modifies this`count, this`full, this`model
      ensures Valid() && model == Announced(old(model), p)
    {
      var c := AddOne(p);
      Notify(p, c);
    }

    // ----- the consumer

    method Receive() returns (ok: bool)
      requires Valid() && model.consumer.Idle?
      modifies this`full, this`model
      ensures Valid() && ok == old(full) && model == if ok then Next(old(model), Take) else old(model)
    {
      ok := full;
      if ok {
        full := false;
        Do(Take, Next(model, Take));
        SameNodes();
      }
    }

    /** LoadPointer of tail.next. */
    method LoadNext() returns (next: QueueNode?)
      requires Valid() && model.consumer.Woken?
      modifies this`model
      ensures Valid() && next == tail.next && Enabled(old(model), Load) && model == Next(old(model), Load)
      ensures next == null <==> model.mem[model.tail].next.None?
      ensures if next == null then model.consumer.Idle? else model.consumer.Loaded? && Is(next, model.consumer.next)
    {
      next := tail.next;
      assert NodeOk(model.tail);
      Do(Load, Next(model, Load));
      SameNodes();
    }

    /** tail moves on and the value is taken out of its new node, which is never empty. */
    method Advance(next: QueueNode) returns (v: int, stub: QueueNode)
      requires Valid() && model.consumer.Loaded? && Is(next, model.consumer.next)
      modifies this`tail, this`model, next
      ensures Valid() && Enabled(old(model), Step.Advance) && model == Next(old(model), Step.Advance)
      ensures model.popped == old(model).popped + [v] && Is(stub, model.consumer.stub)
    {
      LoadedValue(model);
      assert NodeOk(model.consumer.next);
      stub := tail;
      tail := next;
      v := next.val.value;
      next.val := None;
      Do(Step.Advance, Next(model, Step.Advance));
      OneNode(old(model).consumer.next);
    }

    method Recycle(stub: QueueNode)
      requires Valid() && model.consumer.Advanced? && Is(stub, model.consumer.stub)
      modifies this`pool, this`free, this`model, stub
      ensures Valid() && Enabled(old(model), Step.Recycle) && model == Next(old(model), Step.Recycle)
    {
      ghost var a := model.consumer.stub;
      StubOut(model);
      assert NodeOk(a);
      stub.next := null;
      assert a !in free;
      pool, free := pool + [stub], free + [a];
      Do(Step.Recycle, model.(mem := model.mem[a := model.mem[a].(next := None)], pool := model.pool + {a}, consumer := Recycled));
      OneNode(a);
    }

    method SubtractOne() returns (c: int)
      requires Valid() && model.consumer.Recycled?
      modifies this`count, this`model
      ensures Valid() && model == Next(old(model), Subtract) && model.consumer == Subtracted(c)
    {
      count := count - 1;
      c := count;
      Do(Subtract, Next(model, Subtract));
      SameNodes();
    }

    method Renotify(c: int)
      requires Valid() && model.consumer == Subtracted(c)
      modifies this`full, this`model
      ensures Valid() && model == Next(old(model), Step.Renotify)
    {
      if c > 0 { full := true; }
      Do(Step.Renotify, Next(model, Step.Renotify));
      SameNodes();
    }

    /** The oldest value, unless there is none or its producer has yet to link it. */
    method Pop() returns (v: Option<int>)
      requires Valid() && model.consumer.Woken?
      modifies this, nodes
      ensures Valid() && (v.None? <==> old(tail.next) == null)
      ensures nodes == old(nodes)
      ensures v.None? ==> model == old(model).(consumer := Consumer.Idle)
      ensures v.None? ==> Empty(old(model)) || exists p :: Linking(old(model), p)
      ensures v.Some? ==> Popped(old(model), model, v.value)
    {
      ghost var s := model;
      NothingLinked(s);
      var next := LoadNext();
      if next == null { return None; }
      var x, stub := Advance(next);
      Recycle(stub);
      var c := SubtractOne();
      Renotify(c);
      PopRun(s, model, x);
      v := Some(x);
    }
  }

  /** An actor's queue between two senders: one token stands for two values, and the queue asks for
      another one while it is not empty. */
  method Lifecycle(a: int, b: int, c: int)
  {
    var q := new Queue();
    q.Push(1, a);
    q.Push(2, b);
    var v := TakeOne(q);
    assert v == a;
    var w, x := Reuse(q, c);
    assert w == b && x == c;
  }

  /** With one value queued another one comes. */
  method Reuse(q: Queue, c: int) returns (v: int, w: int)
    requires q.Valid() && AtRest(q.model) && q.model.count == 1 && |q.model.pushed| == |q.model.popped| + 1
    modifies q, q.nodes
    ensures q.Valid() && q.model.pushed == old(q.model.pushed) + [c] && q.model.popped == old(q.model.popped) + [v, w]
    ensures v == old(q.model.pushed[|q.model.popped|]) && w == c && !q.full
  {
    q.Push(1, c);
    v := TakeOne(q);
    w := TakeOne(q);
    var ok := q.Receive();
    assert !ok;
  }

  /** A token and a value. */
  method TakeOne(q: Queue) returns (v: int)
    requires q.Valid() && AtRest(q.model) && !Empty(q.model)
    modifies q, q.nodes
    ensures q.Valid() && q.nodes == old(q.nodes) && AtRest(q.model) && q.model.pushed == old(q.model.pushed)
    ensures |old(q.model.popped)| < |q.model.pushed| && v == q.model.pushed[|old(q.model.popped)|]
    ensures q.model.popped == old(q.model.popped) + [v] && q.model.full == (q.model.count > 0) && q.model.count == old(q.model.count) - 1
  {
    NoLostWakeup(q.model);
    var ok := q.Receive();
    var x := q.Pop();
    v := x.value;
  }
}
