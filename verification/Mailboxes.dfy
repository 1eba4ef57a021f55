/** The two halves of net/actor/actor_mailbox.go: the messages of Messages are the values in the queues of
    QueuePool. A post takes effect at the swap of head, and a mailbox gives up a message when its consumer
    advances tail; everything else that a Push or a Pop does comes before or after, among the steps of all
    other goroutines. */
module Mailboxes {
  import opened Wrappers
  import opened Transitions
  import opened QueuePool
  import M = Messages
  import Q = ActorQueue

  /** box: the mailbox of every actor that has been made. The world has other queues too. */
  datatype State = State(calls: M.State, world: World, box: map<M.ActorId, QueueId>)

  const INIT := State(M.INIT, World(map[], {}, map[]), map[])

  datatype Step =
    | Call(x: M.Step)                                // a step of a call or an actor that moves no mail
    | Other(move: Move)                              // the rest of the queues' work, and the event and timer queues
    | Open(a: M.ActorId, q: QueueId, stub: nat)      // newMailbox
    | Push(x: M.Step, p: nat, node: nat)             // a post begins: the Push named p has filled a node
    | Put(x: M.Step, p: nat)                         // the post takes effect, at the swap of head
    | Pop(a: M.ActorId)                              // the loop takes a message, at the advance of tail

  predicate Posts(x: M.Step) { x.Post? || x.Forward? }

  function Receiver(s: M.State, x: M.Step): M.ActorId
    requires M.Enabled(s, x) && Posts(x)
  {
    if x.Post? then s.callers[x.c].phase.to else x.b
  }

  /** The Push p in the mailbox of a has this message in its node, and has not swapped head yet. */
  predicate Has(j: State, a: M.ActorId, p: nat, m: int) {
    a in j.box && j.box[a] in j.world.queues && p in j.world.queues[j.box[a]].producers
    && var x := j.world.queues[j.box[a]].producers[p]; x.Got? && x.val == m
  }

  /** Whoever holds the message is in the middle of posting it. */
  ghost predicate Pushing(j: State, m: M.Ref) {
    exists a, p :: Has(j, a, p, m)
  }

  ghost predicate Pushes(j: State, x: M.Step, p: nat, node: nat) {
    M.Enabled(j.calls, x) && Posts(x) && Receiver(j.calls, x) in j.box && !Pushing(j, M.Touched(j.calls, x).value) &&
    MoveEnabled(j.world, Access(j.box[Receiver(j.calls, x)], Q.Get(p, node, M.Touched(j.calls, x).value)))
  }

  /** A caller posts to an actor that has been made, and nobody does anything else with a message while
      posting it. */
  ghost predicate Calls(j: State, x: M.Step) {
    M.Enabled(j.calls, x) && !Posts(x) && !x.Take? && (x.Find? ==> x.a in j.box)
    && (M.Touched(j.calls, x).Some? ==> !Pushing(j, M.Touched(j.calls, x).value))
  }

  /** What the queues do by themselves; a mailbox is left its links, counts and tokens. */
  predicate Moves(j: State, x: Move) {
    MoveEnabled(j.world, x) && (x.Access? && (x.a.Get? || x.a.Swap? || x.a.Advance?) ==> x.q !in j.box.Values)
  }

  /** The producer p of the receiver's mailbox is about to swap in the node with this very message. */
  predicate Puts(j: State, x: M.Step, p: nat) {
    M.Enabled(j.calls, x) && Posts(x) && Receiver(j.calls, x) in j.box &&
    var q := j.box[Receiver(j.calls, x)];
    MoveEnabled(j.world, Access(q, Q.Swap(p))) && j.world.queues[q].producers[p].val == M.Touched(j.calls, x).value
  }

  /** Pop does not ask for mail: that there is some, and that the queue hands out the oldest, is proved. */
  ghost predicate StepTo(j: State, y: Step, k: State) {
    match y
    case Call(x) => Calls(j, x) && k == j.(calls := M.Next(j.calls, x))
    case Other(x) => Moves(j, x) && k == j.(world := Moved(j.world, x))
    case Open(a, q, stub) =>
      a !in j.box && MoveEnabled(j.world, Create(q, stub)) && k == State(j.calls, Moved(j.world, Create(q, stub)), j.box[a := q])
    case Push(x, p, node) =>
      Pushes(j, x, p, node)
      && k == j.(world := Moved(j.world, Access(j.box[Receiver(j.calls, x)], Q.Get(p, node, M.Touched(j.calls, x).value))))
    case Put(x, p) =>
      Puts(j, x, p)
      && k == State(M.Next(j.calls, x), Moved(j.world, Access(j.box[Receiver(j.calls, x)], Q.Swap(p))), j.box)
    case Pop(a) =>
      Pops(j, a)
      && k == State(if M.Mail(j.calls, a) == [] then j.calls else M.Next(j.calls, M.Take(a)), Moved(j.world, Access(j.box[a], Q.Advance)), j.box)
  }

  /** The idle actor's Pop has found a node. */
  predicate Pops(j: State, a: M.ActorId) {
    a in j.box && M.Doing(j.calls, a).Idle? && MoveEnabled(j.world, Access(j.box[a], Q.Advance))
  }

  /** The value that its Pop then takes out. */
  predicate HandsOut(j: State, a: M.ActorId, m: M.Ref)
    requires Pops(j, a)
  {
    var q := j.box[a];
    var v := Moved(j.world, Access(q, Q.Advance));
    q in v.queues && v.queues[q].popped == j.world.queues[q].popped + [m]
  }

  /** The values in a queue, oldest first. */
  function Waiting(w: World, q: QueueId): seq<int>
    requires q in w.queues
  {
    var s := w.queues[q];
    if |s.popped| <= |s.pushed| then s.pushed[|s.popped|..] else []
  }

  ghost predicate MailAgrees(j: State, a: M.ActorId) {
    if a in j.box then j.box[a] in j.world.queues && Waiting(j.world, j.box[a]) == M.Mail(j.calls, a) else M.Mail(j.calls, a) == []
  }

  predicate BoxesOk(j: State) {
    j.box.Values <= j.world.queues.Keys &&
    forall a, b | a in j.box && b in j.box && a != b :: j.box[a] != j.box[b]
  }

  /** A Push under way in a mailbox is the post of a message by whoever holds it, and the only one. */
  ghost predicate PushOk(j: State, a: M.ActorId, p: nat, m: int) {
    Has(j, a, p, m) ==> (exists x :: Posting(j.calls, x, a, m)) && forall b, r | Has(j, b, r, m) :: b == a && r == p
  }

  predicate Posting(s: M.State, x: M.Step, a: M.ActorId, m: int) {
    M.Enabled(s, x) && Posts(x) && Receiver(s, x) == a && Touches(s, x, m)
  }

  predicate Touches(s: M.State, x: M.Step, m: int)
    requires M.Enabled(s, x)
  {
    M.Touched(s, x).Some? && M.Touched(s, x).value == m
  }

  ghost predicate PostsOk(j: State) {
    (forall a: M.ActorId, p: nat, m: int | Has(j, a, p, m) :: PushOk(j, a, p, m)) &&
    forall c | M.PhaseOf(j.calls, c).Posting? :: M.PhaseOf(j.calls, c).to in j.box
  }

  ghost predicate Inv(j: State) {
    Agrees(j) && PostsOk(j)
  }

  ghost predicate Agrees(j: State) {
    M.Reachable(j.calls) && InReach(j.world) && BoxesOk(j) && forall a: M.ActorId :: MailAgrees(j, a)
  }

  // ----- one step

  lemma MoveQueue(w: World, x: Move, r: QueueId)
    requires MoveEnabled(w, x) && r in w.queues
    ensures var v := Moved(w, x);
      r in v.queues &&
      if x.q != r || (!x.a.Swap? && !x.a.Advance?) then Waiting(v, r) == Waiting(w, r)
      else if x.a.Swap? then
        v.queues[r].pushed == w.queues[r].pushed + [w.queues[r].producers[x.a.p].val] && v.queues[r].popped == w.queues[r].popped
      else v.queues[r].pushed == w.queues[r].pushed
  {}

  lemma MovedReach(w: World, x: Move)
    requires InReach(w) && MoveEnabled(w, x)
    ensures InReach(Moved(w, x))
  {
    var start := World(map[], {}, map[]);
    var moves :| Leads(MoveTo, start, moves, w);
    Snoc(MoveTo, start, moves, w, x, Moved(w, x));
  }

  /** The value that an Advance takes out is the oldest one. */
  lemma AdvancedValue(w: World, q: QueueId)
    requires InReach(w) && MoveEnabled(w, Access(q, Q.Advance))
    ensures var v := Moved(w, Access(q, Q.Advance));
      Waiting(w, q) != [] && q in v.queues && Waiting(v, q) == Waiting(w, q)[1..]
      && v.queues[q].popped == w.queues[q].popped + [Waiting(w, q)[0]]
  {
    EveryQueue(w, q);
    var s := w.queues[q];
    assert s.pushed[..|s.popped| + 1] == s.popped + [s.pushed[|s.popped|]];
    MoveQueue(w, Access(q, Q.Advance), q);
  }

  lemma SwappedValue(w: World, q: QueueId, p: nat)
    requires InReach(w) && MoveEnabled(w, Access(q, Q.Swap(p)))
    ensures var v := Moved(w, Access(q, Q.Swap(p)));
      q in v.queues && Waiting(v, q) == Waiting(w, q) + [w.queues[q].producers[p].val]
  {
    EveryQueue(w, q);
    MoveQueue(w, Access(q, Q.Swap(p)), q);
  }

  lemma StepAgrees(j: State, y: Step, k: State)
    requires Agrees(j) && StepTo(j, y, k)
    ensures Agrees(k)
  {
    match y
    case Call(x) => CallKeeps(j, x, k);
    case Other(x) => OtherKeeps(j, x, k);
    case Open(a, q, stub) => OpenKeeps(j, a, q, stub, k);
    case Push(x, p, node) => PushKeeps(j, x, p, node, k);
    case Put(x, p) => PutKeeps(j, x, p, k);
    case Pop(a) => PopKeeps(j, a, k);
  }

  lemma CallKeeps(j: State, x: M.Step, k: State)
    requires Agrees(j) && StepTo(j, Call(x), k)
    ensures Agrees(k)
  {
    M.ReachedOneMore(j.calls, x);
    forall a: M.ActorId ensures MailAgrees(k, a) {
      assert MailAgrees(j, a);
      M.MailStep(j.calls, x, a);
    }
  }

  lemma OtherKeeps(j: State, x: Move, k: State)
    requires Agrees(j) && Moves(j, x) && k == j.(world := Moved(j.world, x))
    ensures Agrees(k)
  {
    WorldKeeps(j, x, k);
  }

  lemma PushKeeps(j: State, x: M.Step, p: nat, node: nat, k: State)
    requires Agrees(j) && StepTo(j, Push(x, p, node), k)
    ensures Agrees(k)
  {
    WorldKeeps(j, Access(j.box[Receiver(j.calls, x)], Q.Get(p, node, M.Touched(j.calls, x).value)), k);
  }

  lemma WorldKeeps(j: State, x: Move, k: State)
    requires Agrees(j) && MoveEnabled(j.world, x) && k == j.(world := Moved(j.world, x))
    requires x.Access? && (x.a.Swap? || x.a.Advance?) ==> x.q !in j.box.Values
    ensures Agrees(k)
  {
    MovedReach(j.world, x);
    forall r | r in j.world.queues ensures r in k.world.queues { MoveQueue(j.world, x, r); }
    forall a: M.ActorId ensures MailAgrees(k, a) {
      assert MailAgrees(j, a);
      if a in j.box { MoveQueue(j.world, x, j.box[a]); }
    }
  }

  lemma OpenKeeps(j: State, a: M.ActorId, q: QueueId, stub: nat, k: State)
    requires Agrees(j) && StepTo(j, Open(a, q, stub), k)
    ensures Agrees(k)
  {
    var x := Create(q, stub);
    MovedReach(j.world, x);
    forall r | r in j.world.queues ensures r in k.world.queues { MoveQueue(j.world, x, r); }
    forall b: M.ActorId ensures MailAgrees(k, b) {
      assert MailAgrees(j, b);
      if b in j.box { MoveQueue(j.world, x, j.box[b]); }
    }
  }

  lemma PutKeeps(j: State, x: M.Step, p: nat, k: State)
    requires Agrees(j) && StepTo(j, Put(x, p), k)
    ensures Agrees(k)
  {
    var q := j.box[Receiver(j.calls, x)];
    var y := Access(q, Q.Swap(p));
    M.ReachedOneMore(j.calls, x);
    MovedReach(j.world, y);
    SwappedValue(j.world, q, p);
    forall r | r in j.world.queues ensures r in k.world.queues { MoveQueue(j.world, y, r); }
    forall a: M.ActorId ensures MailAgrees(k, a) {
      assert MailAgrees(j, a);
      M.MailStep(j.calls, x, a);
      if a in j.box { MoveQueue(j.world, y, j.box[a]); }
    }
  }

  /** There is a message, and it is the one that the queue hands out. */
  lemma PopTakes(j: State, a: M.ActorId)
    requires Agrees(j) && Pops(j, a)
    ensures M.Enabled(j.calls, M.Take(a)) && HandsOut(j, a, M.Mail(j.calls, a)[0])
  {
    assert MailAgrees(j, a);
    AdvancedValue(j.world, j.box[a]);
  }

  lemma PopKeeps(j: State, a: M.ActorId, k: State)
    requires Agrees(j) && StepTo(j, Pop(a), k)
    ensures Agrees(k)
  {
    var q := j.box[a];
    var y := Access(q, Q.Advance);
    PopTakes(j, a);
    M.ReachedOneMore(j.calls, M.Take(a));
    MovedReach(j.world, y);
    AdvancedValue(j.world, q);
    forall r | r in j.world.queues ensures r in k.world.queues { MoveQueue(j.world, y, r); }
    forall b: M.ActorId ensures MailAgrees(k, b) {
      assert MailAgrees(j, b);
      M.MailStep(j.calls, M.Take(a), b);
      if b in j.box { MoveQueue(j.world, y, j.box[b]); }
    }
  }

  // ----- posts under way

  /** A post that has begun can be finished whatever is done with other messages. */
  lemma PostStays(s: M.State, x: M.Step, a: M.ActorId, m: int, y: M.Step)
    requires Posting(s, x, a, m) && M.Enabled(s, y) && !Touches(s, y, m)
    ensures Posting(M.Next(s, y), x, a, m)
  {
    M.MessageFrame(s, y, m);
    if x.Post? { CallerStays(s, x.c, y); } else { ActorStays(s, x.a, y); }
  }

  lemma CallerStays(s: M.State, c: M.CallId, y: M.Step)
    requires M.PhaseOf(s, c).Posting? && M.Enabled(s, y) && y != M.Post(c)
    ensures M.PhaseOf(M.Next(s, y), c) == M.PhaseOf(s, c)
  {
    OnlyPost(s, c, y);
    M.PhaseFrame(s, y, c);
  }

  /** A caller about to post does nothing else. */
  lemma OnlyPost(s: M.State, c: M.CallId, y: M.Step)
    requires M.PhaseOf(s, c).Posting? && M.Enabled(s, y)
    ensures M.ByCaller(y) && y.c == c ==> y == M.Post(c)
  {}

  lemma ActorStays(s: M.State, a: M.ActorId, y: M.Step)
    requires M.Doing(s, a).Holding? && M.Enabled(s, y) && !Touches(s, y, M.Doing(s, a).m)
    ensures M.Doing(M.Next(s, y), a) == M.Doing(s, a)
  {}

  lemma PhaseFrom(s: M.State, y: M.Step, c: M.CallId)
    requires M.Enabled(s, y) && M.PhaseOf(M.Next(s, y), c).Posting?
    ensures M.PhaseOf(s, c) == M.PhaseOf(M.Next(s, y), c) || y == M.Find(c, M.PhaseOf(M.Next(s, y), c).to)
  {
    if M.ByCaller(y) && y.c == c { OnlyFind(s, y); } else { M.PhaseFrame(s, y, c); }
  }

  lemma OnlyFind(s: M.State, y: M.Step)
    requires M.Enabled(s, y) && M.ByCaller(y) && M.PhaseOf(M.Next(s, y), y.c).Posting?
    ensures y == M.Find(y.c, M.PhaseOf(M.Next(s, y), y.c).to)
  {}

  /** Which nodes Pushes have filled changes with Get and Swap only. */
  lemma MoveHas(w: World, x: Move, r: QueueId, p: nat, m: int)
    requires MoveEnabled(w, x) && r in w.queues
    ensures var v := Moved(w, x);
      r in v.queues &&
      var had := p in w.queues[r].producers && w.queues[r].producers[p].Got? && w.queues[r].producers[p].val == m;
      var has := p in v.queues[r].producers && v.queues[r].producers[p].Got? && v.queues[r].producers[p].val == m;
      (has <==> (had && !(x.Access? && x.q == r && x.a == Q.Swap(p))) || (x.Access? && x.q == r && x.a.Get? && x.a.p == p && x.a.val == m))
  {}

  /** With the messages and queues as before but for Pushes that have ended. */
  lemma PostsKept(j: State, k: State)
    requires PostsOk(j) && k.calls == j.calls && forall a | a in j.box :: a in k.box
    requires forall a, p, m | Has(k, a, p, m) :: Has(j, a, p, m)
    ensures PostsOk(k)
  {
    forall a: M.ActorId, p: nat, m: int | Has(k, a, p, m) ensures PushOk(k, a, p, m) {
      assert PushOk(j, a, p, m);
    }
  }

  /** With one message moved that nobody is posting any more. */
  lemma PostsStay(j: State, k: State, y: M.Step)
    requires PostsOk(j) && M.Enabled(j.calls, y) && k.calls == M.Next(j.calls, y) && k.box == j.box
    requires y.Find? ==> y.a in j.box
    requires forall a, p, m | Has(k, a, p, m) :: Has(j, a, p, m) && !Touches(j.calls, y, m)
    ensures PostsOk(k)
  {
    forall a: M.ActorId, p: nat, m: int | Has(k, a, p, m) ensures PushOk(k, a, p, m) {
      assert PushOk(j, a, p, m);
      var x :| Posting(j.calls, x, a, m);
      PostStays(j.calls, x, a, m, y);
    }
    forall c | M.PhaseOf(k.calls, c).Posting? ensures M.PhaseOf(k.calls, c).to in k.box { PhaseFrom(j.calls, y, c); }
  }

  lemma CallPosts(j: State, x: M.Step, k: State)
    requires Inv(j) && StepTo(j, Call(x), k)
    ensures PostsOk(k)
  {
    forall a, p, m | Has(k, a, p, m) ensures Has(j, a, p, m) && !Touches(j.calls, x, m) {
      assert Has(j, a, p, m);
    }
    PostsStay(j, k, x);
  }

  lemma OtherPosts(j: State, x: Move, k: State)
    requires Inv(j) && StepTo(j, Other(x), k)
    ensures PostsOk(k)
  {
    forall a, p, m | Has(k, a, p, m) ensures Has(j, a, p, m) {
      assert MailAgrees(j, a);
      MoveHas(j.world, x, j.box[a], p, m);
    }
    PostsKept(j, k);
  }

  lemma OpenPosts(j: State, a: M.ActorId, q: QueueId, stub: nat, k: State)
    requires Inv(j) && StepTo(j, Open(a, q, stub), k)
    ensures PostsOk(k)
  {
    forall b, p, m | Has(k, b, p, m) ensures Has(j, b, p, m) {
      assert MailAgrees(j, b);
      if b in j.box { MoveHas(j.world, Create(q, stub), j.box[b], p, m); }
    }
    PostsKept(j, k);
  }

  lemma PushPosts(j: State, x: M.Step, p: nat, node: nat, k: State)
    requires Inv(j) && StepTo(j, Push(x, p, node), k)
    ensures PostsOk(k)
  {
    var to, msg := Receiver(j.calls, x), M.Touched(j.calls, x).value;
    forall a: M.ActorId, r: nat, m: int ensures Has(k, a, r, m) <==> Has(j, a, r, m) || (a == to && r == p && m == msg) {
      assert MailAgrees(j, a) && MailAgrees(j, to);
      if a in j.box { MoveHas(j.world, Access(j.box[to], Q.Get(p, node, msg)), j.box[a], r, m); }
    }
    forall a: M.ActorId, r: nat, m: int | Has(k, a, r, m) ensures PushOk(k, a, r, m) {
      if m == msg { assert Posting(k.calls, x, to, m); }
      if Has(j, a, r, m) { assert PushOk(j, a, r, m); }
    }
  }

  lemma PutPosts(j: State, x: M.Step, p: nat, k: State)
    requires Inv(j) && StepTo(j, Put(x, p), k)
    ensures PostsOk(k)
  {
    var to, msg := Receiver(j.calls, x), M.Touched(j.calls, x).value;
    assert MailAgrees(j, to) && Has(j, to, p, msg) && PushOk(j, to, p, msg);
    forall a, r, m | Has(k, a, r, m) ensures Has(j, a, r, m) && !Touches(j.calls, x, m) {
      assert MailAgrees(j, a);
      MoveHas(j.world, Access(j.box[to], Q.Swap(p)), j.box[a], r, m);
      assert Has(j, a, r, m);
      assert m == msg ==> a == to && r == p;
    }
    PostsStay(j, k, x);
  }

  lemma PopPosts(j: State, a: M.ActorId, k: State)
    requires Inv(j) && StepTo(j, Pop(a), k)
    ensures PostsOk(k)
  {
    PopTakes(j, a);
    forall b, r, m | Has(k, b, r, m) ensures Has(j, b, r, m) && !Touches(j.calls, M.Take(a), m) {
      assert MailAgrees(j, b);
      MoveHas(j.world, Access(j.box[a], Q.Advance), j.box[b], r, m);
      assert PushOk(j, b, r, m);
      var x :| Posting(j.calls, x, b, m);
      NotMailed(j, x, b, m, a);
    }
    PostsStay(j, k, M.Take(a));
  }

  /** A message that is being posted is in no mailbox yet. */
  lemma NotMailed(j: State, x: M.Step, b: M.ActorId, m: int, a: M.ActorId)
    requires M.Reachable(j.calls) && Posting(j.calls, x, b, m) && M.Enabled(j.calls, M.Take(a))
    ensures !Touches(j.calls, M.Take(a), m)
  {
    M.TouchedByOwner(j.calls, x);
    assert M.Owns(j.calls, M.InMail(a), M.Mail(j.calls, a)[0]);
  }

  lemma StepKeeps(j: State, y: Step, k: State)
    requires Inv(j) && StepTo(j, y, k)
    ensures Inv(k)
  {
    StepAgrees(j, y, k);
    match y
    case Call(x) => CallPosts(j, x, k);
    case Other(x) => OtherPosts(j, x, k);
    case Open(a, q, stub) => OpenPosts(j, a, q, stub, k);
    case Push(x, p, node) => PushPosts(j, x, p, node, k);
    case Put(x, p) => PutPosts(j, x, p, k);
    case Pop(a) => PopPosts(j, a, k);
  }

  // ----- whole runs

  ghost predicate Reachable(j: State) {
    exists steps :: Leads(StepTo, INIT, steps, j)
  }

  lemma ReachableInv(j: State)
    requires Reachable(j)
    ensures Inv(j)
  {
    var steps :| Leads(StepTo, INIT, steps, j);
    assert M.Runs(M.INIT, [], M.INIT);
    assert Leads(MoveTo, INIT.world, [], INIT.world);
    forall u, y, v | Inv(u) && StepTo(u, y, v) ensures Inv(v) { StepKeeps(u, y, v); }
    Keeps(StepTo, Inv, INIT, steps, j);
  }

  /** Every run of both together is a run of each: what is proved of the calls and of the queues holds of
      it. The queue of an actor holds the actor's mail, in order, and what its Pop hands out is the message
      that the actor then holds. */
  lemma OneMachine(j: State)
    requires Reachable(j)
    ensures M.Reachable(j.calls) && InReach(j.world)
    ensures forall a | a in j.box :: j.box[a] in j.world.queues && Waiting(j.world, j.box[a]) == M.Mail(j.calls, a)
    ensures forall a | Pops(j, a) :: M.Enabled(j.calls, M.Take(a)) && HandsOut(j, a, M.Mail(j.calls, a)[0])
  {
    ReachableInv(j);
    forall a | a in j.box ensures j.box[a] in j.world.queues && Waiting(j.world, j.box[a]) == M.Mail(j.calls, a) {
      assert MailAgrees(j, a);
    }
    forall a | Pops(j, a)
      ensures M.Enabled(j.calls, M.Take(a)) && HandsOut(j, a, M.Mail(j.calls, a)[0])
    {
      PopTakes(j, a);
    }
  }

  /** A message object is in one slot of one mailbox queue at most, and then with nobody else. */
  lemma OneOwnerQueued(j: State, a: M.ActorId, m: M.Ref)
    requires Reachable(j) && a in j.box && j.box[a] in j.world.queues && m in Waiting(j.world, j.box[a])
    ensures forall i, k | 0 <= i < k < |Waiting(j.world, j.box[a])| :: Waiting(j.world, j.box[a])[i] != Waiting(j.world, j.box[a])[k]
    ensures forall b | b in j.box && b != a :: j.box[b] in j.world.queues && m !in Waiting(j.world, j.box[b])
    ensures forall p | M.Owns(j.calls, p, m) :: p == M.InMail(a)
  {
    OneMachine(j);
    M.OneOwner(j.calls, m);
    M.OneSlot(j.calls, a);
    assert M.Owns(j.calls, M.InMail(a), m);
    forall b | b in j.box && b != a ensures j.box[b] in j.world.queues && m !in Waiting(j.world, j.box[b]) {
      assert M.Owns(j.calls, M.InMail(b), m) <==> m in M.Mail(j.calls, b);
    }
  }

  // ----- standing still

  /** The steps of what is under way: of a call other than giving up, of an actor with a message, of a
      mailbox. What may come from outside is left out: new calls and actors, other queues, the caller's
      deadline, and the eviction of a pooled message. */
  predicate Work(j: State, y: Step) {
    match y
    case Call(x) => !x.Acquire? && !x.Evict? && !x.Expire?
    case Other(x) => x.Access? && x.q in j.box.Values
    case Open(_, _, _) => false
    case _ => true
  }

  ghost predicate Moving(j: State) {
    exists y, k :: Work(j, y) && StepTo(j, y, k)
  }

  /** No Push or Pop is under way in a mailbox and no mailbox has a token. The actors wait, and so do the
      callers that have not returned, at empty result channels. */
  ghost predicate Still(j: State) {
    && (forall a | a in j.box :: QueueStill(j, a))
    && (forall a: M.ActorId :: M.Doing(j.calls, a).Idle?)
    && (forall c | c in j.calls.callers :: CallerStill(j.calls, c))
  }

  predicate QueueStill(j: State, a: M.ActorId)
    requires a in j.box
  {
    j.box[a] in j.world.queues && Q.AtRest(j.world.queues[j.box[a]]) && !j.world.queues[j.box[a]].full
  }

  predicate CallerStill(s: M.State, c: M.CallId)
    requires c in s.callers
  {
    var p := s.callers[c].phase;
    p.Returned? || (p.Waiting? && M.Chan(s, c) == [])
  }

  lemma FreshNat(s: set<nat>) returns (n: nat)
    ensures n !in s
  {
    n := Bound(s);
  }

  lemma {:induction false} Bound(s: set<nat>) returns (b: nat)
    ensures forall x | x in s :: x < b
    decreases |s|
  {
    b := 0;
    if s != {} {
      var x :| x in s;
      b := Bound(s - {x});
      if b <= x { b := x + 1; }
      forall y | y in s ensures y < b { assert y == x || y in s - {x}; }
    }
  }

  /** A post that has begun can take effect. */
  lemma PushMoves(j: State, a: M.ActorId, p: nat, m: int)
    requires Inv(j) && Has(j, a, p, m)
    ensures Moving(j)
  {
    assert PushOk(j, a, p, m);
    var x :| Posting(j.calls, x, a, m);
    assert Puts(j, x, p);
    var k := State(M.Next(j.calls, x), Moved(j.world, Access(j.box[a], Q.Swap(p))), j.box);
    assert Work(j, Put(x, p)) && StepTo(j, Put(x, p), k);
  }

  /** So whoever has something to do with a message, or is posting it, can go on. */
  lemma CallMoves(j: State, x: M.Step)
    requires Inv(j) && M.Enabled(j.calls, x) && !Posts(x) && !x.Take? && Work(j, Call(x)) && (x.Find? ==> x.a in j.box)
    ensures Moving(j)
  {
    if M.Touched(j.calls, x).Some? && Pushing(j, M.Touched(j.calls, x).value) {
      var a, p :| Has(j, a, p, M.Touched(j.calls, x).value);
      PushMoves(j, a, p, M.Touched(j.calls, x).value);
    } else {
      assert StepTo(j, Call(x), j.(calls := M.Next(j.calls, x)));
    }
  }

  lemma PostMoves(j: State, x: M.Step)
    requires Inv(j) && M.Enabled(j.calls, x) && Posts(x) && Receiver(j.calls, x) in j.box
    ensures Moving(j)
  {
    var to, m := Receiver(j.calls, x), M.Touched(j.calls, x).value;
    assert MailAgrees(j, to);
    if Pushing(j, m) {
      var a, p :| Has(j, a, p, m);
      PushMoves(j, a, p, m);
    } else {
      var p := FreshNat(j.world.queues[j.box[to]].producers.Keys);
      var node := FreshNat(j.world.mem.Keys);
      var move := Access(j.box[to], Q.Get(p, node, m));
      assert MoveEnabled(j.world, move);
      assert StepTo(j, Push(x, p, node), j.(world := Moved(j.world, move)));
    }
  }

  /** What is under way in a queue other than a head swap or an advance of tail can go on. */
  lemma QueueStep(j: State, a: M.ActorId, x: Q.Step)
    requires a in j.box && MoveEnabled(j.world, Access(j.box[a], x)) && !x.Get? && !x.Swap? && !x.Advance?
    ensures Moving(j)
  {
    var move := Access(j.box[a], x);
    assert Work(j, Other(move)) && StepTo(j, Other(move), j.(world := Moved(j.world, move)));
  }

  lemma QueueMoves(j: State, a: M.ActorId)
    requires Inv(j) && a in j.box && !QueueStill(j, a)
    ensures Moving(j)
  {
    assert MailAgrees(j, a);
    EveryQueue(j.world, j.box[a]);
    var s := j.world.queues[j.box[a]];
    if s.producers != map[] {
      var p :| p in s.producers;
      match s.producers[p] {
        case Got(_, m) => PushMoves(j, a, p, m);
        case Swapped(_, _) => QueueStep(j, a, Q.Link(p));
        case Linked => QueueStep(j, a, Q.Add(p));
        case Counted(_) => QueueStep(j, a, Q.Notify(p));
      }
    } else {
      ConsumerMoves(j, a);
    }
  }

  lemma ConsumerMoves(j: State, a: M.ActorId)
    requires Inv(j) && a in j.box && j.box[a] in j.world.queues
    requires var s := j.world.queues[j.box[a]]; !s.consumer.Idle? || s.full
    ensures Moving(j)
  {
    EveryQueue(j.world, j.box[a]);
    match j.world.queues[j.box[a]].consumer {
      case Idle => QueueStep(j, a, Q.Take);
      case Woken => QueueStep(j, a, Q.Load);
      case Loaded(_) => LoadedMoves(j, a);
      case Advanced(_) => QueueStep(j, a, Q.Recycle);
      case Recycled => QueueStep(j, a, Q.Subtract);
      case Subtracted(_) => QueueStep(j, a, Q.Renotify);
    }
  }

  lemma LoadedMoves(j: State, a: M.ActorId)
    requires Inv(j) && a in j.box && MoveEnabled(j.world, Access(j.box[a], Q.Advance))
    ensures Moving(j)
  {
    if M.Doing(j.calls, a).Idle? {
      PopTakes(j, a);
      var k := State(M.Next(j.calls, M.Take(a)), Moved(j.world, Access(j.box[a], Q.Advance)), j.box);
      assert Work(j, Pop(a)) && StepTo(j, Pop(a), k);
    } else {
      ActorMoves(j, a);
    }
  }

  lemma ActorMoves(j: State, a: M.ActorId)
    requires Inv(j) && !M.Doing(j.calls, a).Idle?
    ensures Moving(j)
  {
    match M.Doing(j.calls, a) {
      case Holding(m) =>
        if M.Enabled(j.calls, M.Run(a, 0)) {
          CallMoves(j, M.Run(a, 0));
        } else {
          CallMoves(j, M.Reject(a, 0));
        }
      case Finishing(_, _) =>
        M.SendNeverBlocks(j.calls, a);
        CallMoves(j, M.Send(a));
      case Sent(_) => CallMoves(j, M.Clear(a));
      case Cleared(_) => CallMoves(j, M.Put(a));
    }
  }

  lemma CallerMoves(j: State, c: M.CallId)
    requires Inv(j) && c in j.calls.callers && !CallerStill(j.calls, c)
    ensures Moving(j)
  {
    match j.calls.callers[c].phase {
      case Filling(_) => CallMoves(j, M.Fit(c));
      case Looking(_) => CallMoves(j, M.Miss(c));
      case Posting(_, to) => PostMoves(j, M.Post(c));
      case Dropping(_) => CallMoves(j, M.DropClear(c));
      case Dropped(_) => CallMoves(j, M.DropPut(c));
      case Waiting => CallMoves(j, M.Receive(c));
    }
  }

  /** Where everybody stands still no such step can be taken, and elsewhere one can: no call, actor or
      mailbox waits for another one in a circle. */
  lemma StillIff(j: State)
    requires Reachable(j)
    ensures Still(j) <==> !Moving(j)
  {
    ReachableInv(j);
    if !Still(j) {
      if a :| a in j.box && !QueueStill(j, a) {
        QueueMoves(j, a);
      } else if a: M.ActorId :| !M.Doing(j.calls, a).Idle? {
        ActorMoves(j, a);
      } else {
        var c :| c in j.calls.callers && !CallerStill(j.calls, c);
        CallerMoves(j, c);
      }
    } else if Moving(j) {
      var y, k :| Work(j, y) && StepTo(j, y, k);
      StillStops(j, y, k);
    }
  }

  lemma StillStops(j: State, y: Step, k: State)
    requires Still(j) && Work(j, y)
    ensures !StepTo(j, y, k)
  {
    match y
    case Call(x) => IdleCalls(j, x);
    case Other(x) =>
      var a :| a in j.box && j.box[a] == x.q;
      assert QueueStill(j, a);
      RestingQueue(j, a, x.a);
    case Push(x, _, _) => IdleCalls(j, x);
    case Put(x, _) => IdleCalls(j, x);
    case Pop(a) =>
      if a in j.box {
        assert QueueStill(j, a);
        RestingQueue(j, a, Q.Advance);
      }
  }

  /** Nothing but a new Push can be done to a queue at rest without a token. */
  lemma RestingQueue(j: State, a: M.ActorId, x: Q.Step)
    requires a in j.box && QueueStill(j, a)
    ensures MoveEnabled(j.world, Access(j.box[a], x)) ==> x.Get?
  {}

  lemma IdleCalls(j: State, x: M.Step)
    requires Still(j)
    ensures M.Enabled(j.calls, x) ==> x.Acquire? || x.Evict? || x.Expire? || x.Take?
  {
    if M.ByCaller(x) {
      assert x.c in j.calls.callers ==> CallerStill(j.calls, x.c);
    } else if !x.Evict? {
      assert M.Doing(j.calls, x.a).Idle?;
    }
  }

  /** When everybody stands still nothing has been lost on the way, neither a message in a queue nor the
      token for it: every message is released once, and every caller has returned. */
  lemma NothingStuck(j: State)
    requires Reachable(j) && Still(j)
    ensures forall c | c in j.calls.callers :: j.calls.released[c] == 1 && j.calls.callers[c].phase.Returned?
    ensures forall m | m in j.calls.contents :: m in j.calls.pool || (m in j.calls.at && j.calls.at[m].Gone?)
  {
    ReachableInv(j);
    forall a: M.ActorId ensures M.Mail(j.calls, a) == [] {
      assert MailAgrees(j, a);
      if a in j.box {
        assert QueueStill(j, a);
        EveryQueue(j.world, j.box[a]);
      }
    }
    forall c | c in j.calls.callers ensures CallerStill(j.calls, c) {}
    M.NothingLeaks(j.calls);
  }

  /** And so it is wherever no step of what is under way can be taken. */
  lemma EverythingEnds(j: State)
    requires Reachable(j) && !Moving(j)
    ensures forall c | c in j.calls.callers :: j.calls.released[c] == 1 && j.calls.callers[c].phase.Returned?
    ensures forall m | m in j.calls.contents :: m in j.calls.pool || (m in j.calls.at && j.calls.at[m].Gone?)
  {
    StillIff(j);
    NothingStuck(j);
  }
}
