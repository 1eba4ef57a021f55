/** net/actor/queue.go: the lock-free queue of an actor, any number of producers and
    one consumer, every atomic or private access a step of its own. Nodes are
    addresses in `mem`; a pooled node may be handed to any producer again. */
module ActorQueue {
  import opened Wrappers
  import opened Transitions

  datatype Node = Node(next: Option<nat>, val: Option<int>)

  /** A Push in flight: has its node; has swapped head (prev.next still to be
      written); has linked; has added to count and read it. */
  datatype Producer = Got(node: nat, val: int) | Swapped(node: nat, prev: nat) | Linked | Counted(count: int)

  /** The consumer: waiting for a token; in Pop before loading tail.next; with a
      non-nil next; after advancing tail; after recycling; after subtracting. */
  datatype Consumer = Idle | Woken | Loaded(next: nat) | Advanced(stub: nat) | Recycled | Subtracted(count: int)

  /** `full` is the one-slot channel C. The last three fields are history: the nodes
      from tail to head, and the values in the order of head swaps and of pops. */
  datatype State = State(
    mem: map<nat, Node>, pool: set<nat>, head: nat, tail: nat, count: int, full: bool,
    producers: map<nat, Producer>, consumer: Consumer,
    chain: seq<nat>, pushed: seq<int>, popped: seq<int>)

  datatype Step =
    | Get(p: nat, node: nat, val: int)  // node from the pool, or new
    | Swap(p: nat)
    | Link(p: nat)
    | Add(p: nat)
    | Notify(p: nat)
    | Take                              // a token from C
    | Load
    | Advance
    | Recycle
    | Subtract
    | Renotify

  const INIT := State(map[0 := Node(None, None)], {}, 0, 0, 0, false, map[], Idle, [0], [], [])

  predicate Enabled(s: State, a: Step) {
    match a
    case Get(p, n, _) => p !in s.producers && (n in s.pool || n !in s.mem)
    case Swap(p) => p in s.producers && s.producers[p].Got?
    case Link(p) => p in s.producers && s.producers[p].Swapped? && s.producers[p].prev in s.mem
    case Add(p) => p in s.producers && s.producers[p].Linked?
    case Notify(p) => p in s.producers && s.producers[p].Counted?
    case Take => s.consumer.Idle? && s.full
    case Load => s.consumer.Woken? && s.tail in s.mem
    case Advance => s.consumer.Loaded? && s.consumer.next in s.mem && s.mem[s.consumer.next].val.Some? && |s.chain| > 0
    case Recycle => s.consumer.Advanced? && s.consumer.stub in s.mem
    case Subtract => s.consumer.Recycled?
    case Renotify => s.consumer.Subtracted?
  }

  function Next(s: State, a: Step): State
    requires Enabled(s, a)
  {
    match a
    case Get(p, n, v) =>
      s.(mem := s.mem[n := Node(None, Some(v))], pool := s.pool - {n}, producers := s.producers[p := Got(n, v)])
    case Swap(p) =>
      var n := s.producers[p].node;
      s.(head := n, producers := s.producers[p := Swapped(n, s.head)],
         chain := s.chain + [n], pushed := s.pushed + [s.producers[p].val])
    case Link(p) =>
      var prev := s.producers[p].prev;
      s.(mem := s.mem[prev := s.mem[prev].(next := Some(s.producers[p].node))], producers := s.producers[p := Linked])
    case Add(p) =>
      s.(count := s.count + 1, producers := s.producers[p := Counted(s.count + 1)])
    case Notify(p) =>
      s.(full := s.full || s.producers[p].count > 0, producers := s.producers - {p})
    case Take => s.(full := false, consumer := Woken)
    case Load =>
      s.(consumer := if s.mem[s.tail].next.Some? then Loaded(s.mem[s.tail].next.value) else Idle)
    case Advance =>
      var n := s.consumer.next;
      s.(tail := n, consumer := Advanced(s.tail), chain := s.chain[1..],
         popped := s.popped + [s.mem[n].val.value], mem := s.mem[n := s.mem[n].(val := None)])
    case Recycle =>
      var n := s.consumer.stub;
      s.(mem := s.mem[n := s.mem[n].(next := None)], pool := s.pool + {n}, consumer := Recycled)
    case Subtract => s.(count := s.count - 1, consumer := Subtracted(s.count - 1))
    case Renotify => s.(full := s.full || s.consumer.count > 0, consumer := Idle)
  }

  // ----- the invariant

  ghost predicate Distinct(xs: seq<nat>) {
    forall i, j | 0 <= i < j < |xs| :: xs[i] != xs[j]
  }

  /** The i-th link of the chain is missing and p is the producer that will write it. */
  ghost predicate Writes(s: State, p: nat, i: nat) {
    0 <= i < |s.chain| - 1 && p in s.producers && s.producers[p] == Swapped(s.chain[i + 1], s.chain[i])
  }

  ghost predicate LinkOk(s: State, i: nat)
    requires i < |s.chain| - 1 && s.chain[i] in s.mem
  {
    s.mem[s.chain[i]].next == Some(s.chain[i + 1]) || (s.mem[s.chain[i]].next == None && exists p :: Writes(s, p, i))
  }

  /** The nodes from tail to head are distinct and in use. */
  ghost predicate NodesOk(s: State) {
    && |s.chain| >= 1 && s.chain[0] == s.tail && s.chain[|s.chain| - 1] == s.head
    && Distinct(s.chain)
    && (forall i | 0 <= i < |s.chain| :: s.chain[i] in s.mem && s.chain[i] !in s.pool)
    && s.mem[s.head].next == None
  }

  /** Each links to the next one, or is about to be linked by the producer that swapped it in. */
  ghost predicate ChainOk(s: State) {
    && NodesOk(s)
    && (forall i | 0 <= i < |s.chain| - 1 :: LinkOk(s, i))
    && (forall p | p in s.producers && s.producers[p].Swapped? :: exists i: nat :: Writes(s, p, i) && s.mem[s.chain[i]].next == None)
  }

  /** A node is in the pool, in the chain, private to one producer, or the consumer's. */
  ghost predicate OwnersOk(s: State) {
    && s.pool <= s.mem.Keys && s.tail in s.mem
    && (forall p | p in s.producers && s.producers[p].Got? :: var n := s.producers[p].node;
          n in s.mem && n !in s.pool && n !in s.chain && s.mem[n] == Node(None, Some(s.producers[p].val)))
    && (forall p, r | p in s.producers && r in s.producers && p != r && s.producers[p].Got? && s.producers[r].Got? ::
          s.producers[p].node != s.producers[r].node)
    && (forall p, r | p in s.producers && r in s.producers && p != r && s.producers[p].Swapped? && s.producers[r].Swapped? ::
          s.producers[p].node != s.producers[r].node)
    && (s.consumer.Loaded? ==> |s.chain| > 1 && s.consumer.next == s.chain[1] && s.mem[s.tail].next == Some(s.chain[1]))
    && (s.consumer.Advanced? ==> var n := s.consumer.stub;
          && n in s.mem && n !in s.pool && n !in s.chain && s.mem[n].next.Some?
          && forall p | p in s.producers && s.producers[p].Got? :: s.producers[p].node != n)
  }

  /** What has been popped is a prefix of what has been pushed; the rest is in the chain. */
  ghost predicate ValuesOk(s: State) {
    && |s.chain| >= 1 && |s.pushed| == |s.popped| + |s.chain| - 1
    && s.popped == s.pushed[..|s.popped|]
    && forall i | 1 <= i < |s.chain| :: s.chain[i] in s.mem && s.mem[s.chain[i]].val == Some(s.pushed[|s.popped| + i - 1])
  }

  function Uncounted(ps: map<nat, Producer>): set<nat> {
    set p | p in ps && IsUncounted(ps[p])
  }

  /** count is the queue length, but for pushes not yet added and a pop not yet subtracted. */
  ghost predicate CountOk(s: State) {
    s.count == |s.chain| - 1 - |Uncounted(s.producers)| + if s.consumer.Advanced? || s.consumer.Recycled? then 1 else 0
  }

  /** With a positive count, somebody will look at the queue again. */
  ghost predicate WakeOk(s: State) {
    s.count > 0 ==>
      || s.full
      || (exists p :: p in s.producers && (s.producers[p].Swapped? || s.producers[p].Linked? || (s.producers[p].Counted? && s.producers[p].count > 0)))
      || s.consumer.Woken? || s.consumer.Loaded? || s.consumer.Advanced? || s.consumer.Recycled?
      || (s.consumer.Subtracted? && s.consumer.count > 0)
  }

  ghost predicate Inv(s: State) {
    ChainOk(s) && OwnersOk(s) && ValuesOk(s) && CountOk(s) && WakeOk(s)
  }

  // ----- steps on the nodes

  ghost predicate Shape(s: State) {
    ChainOk(s) && OwnersOk(s) && ValuesOk(s)
  }

  /** Swapped producers keep writing the same links when the chain keeps its nodes
      and the other producers keep their stage. */
  lemma GetShape(s: State, p: nat, n: nat, v: int)
    requires Shape(s) && Enabled(s, Get(p, n, v))
    ensures Shape(Next(s, Get(p, n, v)))
  {
    GetChain(s, p, n, v);
    GetOwners(s, p, n, v);
    var t := Next(s, Get(p, n, v));
    assert forall i | 0 <= i < |s.chain| :: s.chain[i] != n;
  }

  lemma GetOwners(s: State, p: nat, n: nat, v: int)
    requires Shape(s) && Enabled(s, Get(p, n, v))
    ensures OwnersOk(Next(s, Get(p, n, v)))
  {
    assert n !in s.chain;
  }

  lemma GetChain(s: State, p: nat, n: nat, v: int)
    requires Shape(s) && Enabled(s, Get(p, n, v))
    ensures ChainOk(Next(s, Get(p, n, v)))
  {
    var t := Next(s, Get(p, n, v));
    assert n !in s.chain;
    forall i | 0 <= i < |t.chain| - 1 ensures LinkOk(t, i) {
      assert LinkOk(s, i);
      if r :| Writes(s, r, i) { assert Writes(t, r, i); }
    }
    forall r | r in t.producers && t.producers[r].Swapped? ensures exists i: nat :: Writes(t, r, i) && t.mem[t.chain[i]].next == None {
      var i: nat :| Writes(s, r, i) && s.mem[s.chain[i]].next == None;
      assert Writes(t, r, i);
    }
  }

  lemma SwapShape(s: State, p: nat)
    requires Shape(s) && Enabled(s, Swap(p))
    ensures Shape(Next(s, Swap(p)))
  {
    var t, n, last := Next(s, Swap(p)), s.producers[p].node, |s.chain| - 1;
    assert t.chain[last] == s.head && t.chain[last + 1] == n;
    assert ChainOk(t) by { SwapChain(s, p); }
    assert OwnersOk(t) by {
      forall r | r in t.producers && r != p && t.producers[r].Swapped? ensures t.producers[r].node != n {
        var i: nat :| Writes(s, r, i) && s.mem[s.chain[i]].next == None;
      }
    }
    assert t.pushed[..|t.popped|] == s.pushed[..|s.popped|];
  }

  lemma SwapChain(s: State, p: nat)
    requires Shape(s) && Enabled(s, Swap(p))
    ensures ChainOk(Next(s, Swap(p)))
  {
    var t, n, last := Next(s, Swap(p)), s.producers[p].node, |s.chain| - 1;
    assert Writes(t, p, last);
    forall i | 0 <= i < |t.chain| - 1 ensures LinkOk(t, i) {
      if i < last {
        assert LinkOk(s, i);
        if r :| Writes(s, r, i) { assert Writes(t, r, i); }
      }
    }
    forall r | r in t.producers && t.producers[r].Swapped? ensures exists i: nat :: Writes(t, r, i) && t.mem[t.chain[i]].next == None {
      if r != p {
        var i: nat :| Writes(s, r, i) && s.mem[s.chain[i]].next == None;
        assert Writes(t, r, i);
      }
    }
  }

  lemma LinkShape(s: State, p: nat)
    requires Shape(s) && Enabled(s, Link(p))
    ensures Shape(Next(s, Link(p)))
  {
    var k: nat :| Writes(s, p, k) && s.mem[s.chain[k]].next == None;
    var t, prev := Next(s, Link(p)), s.producers[p].prev;
    LinkChain(s, p, k);
    LinkOwners(s, t, p, prev, k);
    SameValues(s, t);
  }

  lemma SameValues(s: State, t: State)
    requires ValuesOk(s) && t.chain == s.chain && t.pushed == s.pushed && t.popped == s.popped
    requires forall n | n in s.mem :: n in t.mem && t.mem[n].val == s.mem[n].val
    ensures ValuesOk(t)
  {}

  lemma LinkOwners(s: State, t: State, p: nat, prev: nat, k: nat)
    requires Shape(s) && p in s.producers && k < |s.chain| - 1 && prev == s.chain[k]
    requires t == s.(mem := s.mem[prev := Node(Some(s.chain[k + 1]), s.mem[prev].val)], producers := s.producers[p := Linked])
    ensures OwnersOk(t)
  {}

  lemma LinkChain(s: State, p: nat, k: nat)
    requires Shape(s) && Enabled(s, Link(p)) && Writes(s, p, k) && s.mem[s.chain[k]].next == None
    ensures ChainOk(Next(s, Link(p)))
  {
    var t := Next(s, Link(p));
    LinkNodes(s, p, k);
    forall i | 0 <= i < |t.chain| - 1 ensures LinkOk(t, i) { LinkOne(s, p, k, i); }
    forall r | r in t.producers && t.producers[r].Swapped? ensures exists i: nat :: Writes(t, r, i) && t.mem[t.chain[i]].next == None {
      LinkOther(s, p, k, r);
    }
  }

  lemma LinkNodes(s: State, p: nat, k: nat)
    requires NodesOk(s) && Enabled(s, Link(p)) && Writes(s, p, k)
    ensures NodesOk(Next(s, Link(p)))
  {}

  lemma LinkOther(s: State, p: nat, k: nat, r: nat)
    requires Shape(s) && Enabled(s, Link(p)) && Writes(s, p, k) && r != p && r in s.producers && s.producers[r].Swapped?
    ensures exists i: nat :: Writes(Next(s, Link(p)), r, i) && Next(s, Link(p)).mem[s.chain[i]].next == None
  {
    var i: nat :| Writes(s, r, i) && s.mem[s.chain[i]].next == None;
    assert s.producers[r].node != s.producers[p].node;
    assert Writes(Next(s, Link(p)), r, i) && s.chain[i] != s.chain[k];
  }

  lemma LinkOne(s: State, p: nat, k: nat, i: nat)
    requires Shape(s) && Enabled(s, Link(p)) && Writes(s, p, k) && i < |s.chain| - 1
    ensures LinkOk(Next(s, Link(p)), i)
  {
    assert LinkOk(s, i);
    if i != k {
      if r :| Writes(s, r, i) {
        assert s.producers[r].node != s.producers[p].node;
        assert Writes(Next(s, Link(p)), r, i);
      }
    }
  }

  lemma AdvanceShape(s: State)
    requires Shape(s) && Enabled(s, Advance)
    ensures Shape(Next(s, Advance))
  {
    AdvanceChain(s);
    AdvanceOwners(s);
    AdvanceValues(s);
  }

  lemma AdvanceChain(s: State)
    requires Shape(s) && Enabled(s, Advance)
    ensures ChainOk(Next(s, Advance))
  {
    var t := Next(s, Advance);
    forall i | 0 <= i < |t.chain| - 1 ensures LinkOk(t, i) {
      var j := i + 1;
      assert LinkOk(s, j);
      if r :| Writes(s, r, j) { assert Writes(t, r, i); }
    }
    forall r | r in t.producers && t.producers[r].Swapped? ensures exists i: nat :: Writes(t, r, i) && t.mem[t.chain[i]].next == None {
      var i: nat :| Writes(s, r, i) && s.mem[s.chain[i]].next == None;
      assert Writes(t, r, i - 1);
    }
  }

  lemma AdvanceOwners(s: State)
    requires Shape(s) && Enabled(s, Advance)
    ensures OwnersOk(Next(s, Advance))
  {
    assert s.chain[0] in s.chain && s.chain[1] in s.chain;
  }

  lemma AdvanceValues(s: State)
    requires Shape(s) && Enabled(s, Advance)
    ensures ValuesOk(Next(s, Advance))
  {
    var t := Next(s, Advance);
    assert forall i | 0 <= i < |t.chain| :: t.chain[i] == s.chain[i + 1];
  }

  lemma RecycleShape(s: State)
    requires Shape(s) && Enabled(s, Recycle)
    ensures Shape(Next(s, Recycle))
  {
    var t := Next(s, Recycle);
    forall i | 0 <= i < |t.chain| - 1 ensures LinkOk(t, i) {
      assert LinkOk(s, i);
      if r :| Writes(s, r, i) { assert Writes(t, r, i); }
    }
    forall r | r in t.producers && t.producers[r].Swapped? ensures exists i: nat :: Writes(t, r, i) && t.mem[t.chain[i]].next == None {
      var i: nat :| Writes(s, r, i) && s.mem[s.chain[i]].next == None;
      assert Writes(t, r, i);
    }
  }

  predicate IsQuiet(a: Step) {
    !a.Get? && !a.Swap? && !a.Link? && !a.Advance? && !a.Recycle?
  }

  /** The other steps leave the nodes alone. */
  lemma QuietShape(s: State, a: Step)
    requires Shape(s) && Enabled(s, a) && IsQuiet(a)
    ensures Shape(Next(s, a))
  {
    QuietChain(s, a);
    QuietOwners(s, a);
    SameValues(s, Next(s, a));
  }

  lemma QuietChain(s: State, a: Step)
    requires Shape(s) && Enabled(s, a) && IsQuiet(a)
    ensures ChainOk(Next(s, a))
  {
    var t := Next(s, a);
    forall i | 0 <= i < |t.chain| - 1 ensures LinkOk(t, i) {
      assert LinkOk(s, i);
      if r :| Writes(s, r, i) { assert Writes(t, r, i); }
    }
    forall r | r in t.producers && t.producers[r].Swapped? ensures exists i: nat :: Writes(t, r, i) && t.mem[t.chain[i]].next == None {
      var i: nat :| Writes(s, r, i) && s.mem[s.chain[i]].next == None;
      assert Writes(t, r, i);
    }
  }

  lemma QuietOwners(s: State, a: Step)
    requires Shape(s) && Enabled(s, a) && IsQuiet(a)
    ensures OwnersOk(Next(s, a))
  {
    if a.Load? && |s.chain| > 1 { assert LinkOk(s, 0); }
  }

  // ----- steps on the counter and the channel

  lemma CountKeeps(s: State, a: Step)
    requires Shape(s) && CountOk(s) && Enabled(s, a)
    ensures CountOk(Next(s, a))
  {
    UncountedStep(s, a);
    if a.Advance? { assert |Next(s, a).chain| == |s.chain| - 1; }
  }

  /** Only a head swap and an addition to count change which pushes are uncounted. */
  lemma UncountedStep(s: State, a: Step)
    requires Enabled(s, a)
    ensures |Uncounted(Next(s, a).producers)| == |Uncounted(s.producers)| + if a.Swap? then 1 else if a.Add? then -1 else 0
  {
    match a
    case Get(p, _, _) => UncountedSet(s.producers, p, Next(s, a).producers[p]);
    case Swap(p) => UncountedSet(s.producers, p, Next(s, a).producers[p]);
    case Link(p) => UncountedSet(s.producers, p, Next(s, a).producers[p]);
    case Add(p) => UncountedSet(s.producers, p, Next(s, a).producers[p]);
    case Notify(p) => assert Uncounted(s.producers - {p}) == Uncounted(s.producers);
    case _ =>
  }

  predicate IsUncounted(x: Producer) { x.Swapped? || x.Linked? }

  lemma UncountedSet(ps: map<nat, Producer>, p: nat, x: Producer)
    ensures |Uncounted(ps[p := x])| ==
      |Uncounted(ps)| + (if IsUncounted(x) then 1 else 0) - if p in ps && IsUncounted(ps[p]) then 1 else 0
  {
    var u := Uncounted(ps) - {p};
    assert Uncounted(ps) == if p in ps && IsUncounted(ps[p]) then u + {p} else u;
    assert Uncounted(ps[p := x]) == if IsUncounted(x) then u + {p} else u;
  }

  lemma WakeKeeps(s: State, a: Step)
    requires Inv(s) && Enabled(s, a)
    ensures WakeOk(Next(s, a))
  {
    var t := Next(s, a);
    if t.count > 0 {
      match a
      case Load =>
        if t.consumer.Idle? {
          // a counted value is in the chain, but its link is missing
          assert |s.chain| > 1;
          assert LinkOk(s, 0);
          var p :| Writes(s, p, 0);
          assert t.producers[p].Swapped?;
        }
      case Add(p) => assert t.producers[p].Counted?;
      case Swap(p) => assert t.producers[p].Swapped?;
      case Link(p) => assert t.producers[p].Linked?;
      case Get(q, _, _) => StillThere(s, t, q);
      case Notify(q) => StillThere(s, t, q);
      case Take =>
      case Advance =>
      case Recycle =>
      case Subtract =>
      case Renotify =>
    }
  }

  lemma StillThere(s: State, t: State, q: nat)
    requires WakeOk(s) && s.count > 0 && t.consumer == s.consumer
    requires forall p | p in s.producers && p != q :: p in t.producers && t.producers[p] == s.producers[p]
    requires q in s.producers ==> s.producers[q].Counted? && t.full == (s.full || s.producers[q].count > 0)
    requires q !in s.producers ==> t.full == s.full
    requires t.count == s.count
    ensures WakeOk(t)
  {
    if !s.full && exists p :: p in s.producers && (s.producers[p].Swapped? || s.producers[p].Linked? || (s.producers[p].Counted? && s.producers[p].count > 0)) {
      var p :| p in s.producers && (s.producers[p].Swapped? || s.producers[p].Linked? || (s.producers[p].Counted? && s.producers[p].count > 0));
      assert p == q ==> t.full;
      assert p != q ==> t.producers[p] == s.producers[p];
    }
  }

  lemma StepKeeps(s: State, a: Step)
    requires Inv(s) && Enabled(s, a)
    ensures Inv(Next(s, a))
  {
    CountKeeps(s, a);
    WakeKeeps(s, a);
    match a
    case Get(p, n, v) => GetShape(s, p, n, v);
    case Swap(p) => SwapShape(s, p);
    case Link(p) => LinkShape(s, p);
    case Advance => AdvanceShape(s);
    case Recycle => RecycleShape(s);
    case _ => QuietShape(s, a);
  }

  // ----- whole runs

  predicate StepTo(s: State, x: Step, t: State) {
    Enabled(s, x) && Next(s, x) == t
  }

  ghost predicate Runs(s: State, steps: seq<Step>, t: State) {
    Leads(StepTo, s, steps, t)
  }

  lemma RunsKeep(s: State, steps: seq<Step>, t: State)
    requires Inv(s) && Runs(s, steps, t)
    ensures Inv(t)
  {
    forall u, x, v | Inv(u) && StepTo(u, x, v) ensures Inv(v) { StepKeeps(u, x); }
    Keeps(StepTo, Inv, s, steps, t);
  }

  ghost predicate Reachable(s: State) {
    exists steps :: Runs(INIT, steps, s)
  }

  lemma ReachableInv(s: State)
    requires Reachable(s)
    ensures Inv(s)
  {
    var steps :| Runs(INIT, steps, s);
    assert Uncounted(INIT.producers) == {};
    RunsKeep(INIT, steps, s);
  }

  lemma ReachedOneMore(s: State, x: Step)
    requires Reachable(s) && Enabled(s, x)
    ensures Reachable(Next(s, x))
  {
    var steps :| Runs(INIT, steps, s);
    Snoc(StepTo, INIT, steps, s, x, Next(s, x));
    assert Runs(INIT, steps + [x], Next(s, x));
  }

  /** First in, first out, in the order of head swaps, each value at most once; and
      a Pop that finds no next node finds the queue empty, or the producer of the
      next value between its swap and its link. */
  ghost predicate InOrder(s: State) {
    && |s.popped| <= |s.pushed| && s.popped == s.pushed[..|s.popped|]
    && (s.consumer.Loaded? ==>
          |s.popped| < |s.pushed| && Enabled(s, Advance) && Next(s, Advance).popped == s.pushed[..|s.popped| + 1])
    && s.tail in s.mem
    && (s.mem[s.tail].next.None? ==>
          |s.popped| == |s.pushed| || exists p :: p in s.producers && s.producers[p].Swapped? && s.producers[p].prev == s.tail)
  }

  lemma Fifo(s: State)
    requires Reachable(s)
    ensures InOrder(s)
  {
    ReachableInv(s);
    OrderKept(s);
  }

  lemma OrderKept(s: State)
    requires Inv(s)
    ensures InOrder(s)
  {
    if s.mem[s.tail].next.None? && |s.popped| < |s.pushed| {
      assert LinkOk(s, 0);
      var p :| Writes(s, p, 0);
      assert s.producers[p].prev == s.tail;
    }
  }

  /** A node is recycled only after its successor has been linked, so the node a
      producer is about to write, its own or its predecessor, is never in the pool,
      and no other producer has been given it. */
  ghost predicate RecyclesSafely(s: State) {
    && (s.consumer.Advanced? ==> s.consumer.stub in s.mem && s.mem[s.consumer.stub].next.Some?)
    && (forall p | p in s.producers && s.producers[p].Swapped? ::
          && Enabled(s, Link(p)) && s.producers[p].prev !in s.pool && s.mem[s.producers[p].prev].next.None?
          && (s.consumer.Advanced? ==> s.consumer.stub != s.producers[p].prev)
          && forall r | r in s.producers && s.producers[r].Got? :: s.producers[r].node != s.producers[p].prev)
    && forall p, r | p in s.producers && r in s.producers && p != r && s.producers[p].Swapped? && s.producers[r].Swapped? ::
         s.producers[p].prev != s.producers[r].prev
  }

  lemma SafeRecycling(s: State)
    requires Reachable(s)
    ensures RecyclesSafely(s)
  {
    ReachableInv(s);
    RecyclingKept(s);
  }

  lemma RecyclingKept(s: State)
    requires Inv(s)
    ensures RecyclesSafely(s)
  {
    forall p | p in s.producers && s.producers[p].Swapped?
      ensures s.producers[p].prev in s.chain && s.mem[s.producers[p].prev].next.None?
    {
      var i: nat :| Writes(s, p, i) && s.mem[s.chain[i]].next == None;
      assert s.chain[i] in s.chain;
    }
    forall p, r | p in s.producers && r in s.producers && p != r && s.producers[p].Swapped? && s.producers[r].Swapped?
      ensures s.producers[p].prev != s.producers[r].prev
    {
      var i: nat :| Writes(s, p, i) && s.mem[s.chain[i]].next == None;
      var j: nat :| Writes(s, r, j) && s.mem[s.chain[j]].next == None;
    }
  }

  /** No push is in flight and the consumer waits for a token. */
  predicate AtRest(s: State) {
    s.producers == map[] && s.consumer.Idle?
  }

  /** No lost wake-up: at rest, count is the length of the queue, and a token is
      waiting whenever it is not empty. */
  ghost predicate Awake(s: State) {
    AtRest(s) ==> s.count == |s.pushed| - |s.popped| && (!s.full ==> s.popped == s.pushed)
  }

  lemma NoLostWakeup(s: State)
    requires Reachable(s)
    ensures Awake(s)
  {
    ReachableInv(s);
    AwakeKept(s);
  }

  lemma AwakeKept(s: State)
    requires Inv(s)
    ensures Awake(s)
  {
    if AtRest(s) { assert Uncounted(s.producers) == {}; }
  }
}
