/** net/cluster/rabbitmq_cluster/cluster.go, requests: any number of nodes, calls and reply pumps over
    a network that loses, delays, reorders and repeats messages. What was sent once stays available,
    to be delivered any number of times or never. */
module ClusterReply {
  import opened Transitions

  type Node = nat
  type Call = nat
  type Pump = nat

  datatype Outcome = Response(r: Reply) | Mismatch | PublishFailed | TimedOut

  /** Leaving: the deferred delete of the waiter is still to come. */
  datatype Phase = Numbering | Storing | Publishing | Waiting | Leaving(outcome: Outcome) | Returned(outcome: Outcome)

  /** One call of Request at a node: the message's own ID, and its correlation ID once it has one. */
  datatype Request = Request(node: Node, messageId: nat, corrId: nat, phase: Phase)

  datatype Asked = Asked(to: Node, corrId: nat, messageId: nat, call: Call)  // to: the replyTo key

  /** call is no field of the message: it records what the response was built for. */
  datatype Reply = Reply(to: Node, corrId: nat, messageId: nat, body: nat, call: Call)

  /** What ended the wait of a call. */
  datatype Ending = Delivered | PublishError | Deadline

  datatype State = State(
    seqs: map<Node, nat>, waiters: map<(Node, nat), Call>, calls: map<Call, Request>, chans: map<Call, seq<Reply>>,
    pumps: map<Pump, (Call, Reply)>,  // pumps that have taken a waiter out and not yet sent to its channel
    asked: set<Asked>, replies: set<Reply>,
    // what happened: who got a number, which pump took the waiter of a call and for which reply, what peers
    // answered to what, and what ended a call
    numbered: map<(Node, nat), Call>, taken: map<Call, Pump>, loaded: map<Call, Reply>,
    served: set<(Asked, nat)>, ended: map<Call, Ending>)

  datatype Step =
    | Begin(c: Call, node: Node, messageId: nat) | Number(c: Call) | Store(c: Call)
    | Publish(c: Call) | FailPublish(c: Call, sent: bool) | Receive(c: Call) | Timeout(c: Call) | Return(c: Call)
    | Serve(a: Asked, body: nat) | Load(p: Pump, r: Reply) | Send(p: Pump)

  function Initial(): State {
    State(map[], map[], map[], map[], map[], {}, {}, map[], map[], map[], {}, map[])
  }

  function Seq(s: State, n: Node): nat { if n in s.seqs then s.seqs[n] else 0 }

  function Chan(s: State, c: Call): seq<Reply> { if c in s.chans then s.chans[c] else [] }

  predicate In(s: State, c: Call, p: Phase) {
    c in s.calls && s.calls[c].phase == p
  }

  function Key(q: Request): (Node, nat) { (q.node, q.corrId) }

  function AskedBy(s: State, c: Call): Asked
    requires c in s.calls
  {
    Asked(s.calls[c].node, s.calls[c].corrId, s.calls[c].messageId, c)
  }

  predicate Enabled(s: State, x: Step) {
    match x
    case Begin(c, _, _) => c !in s.calls
    case Number(c) => In(s, c, Numbering)
    case Store(c) => In(s, c, Storing)
    case Publish(c) => In(s, c, Publishing)
    case FailPublish(c, _) => In(s, c, Publishing)
    case Receive(c) => In(s, c, Waiting) && Chan(s, c) != []
    case Timeout(c) => In(s, c, Waiting)
    case Return(c) => c in s.calls && s.calls[c].phase.Leaving?
    case Serve(a, _) => a in s.asked
    case Load(p, r) => r in s.replies && p !in s.pumps
    case Send(p) => p in s.pumps
  }

  function Goto(s: State, c: Call, p: Phase): (t: State)
    requires c in s.calls
    ensures t == s.(calls := t.calls)
  {
    s.(calls := s.calls[c := s.calls[c].(phase := p)])
  }

  function Next(s: State, x: Step): State
    requires Enabled(s, x)
  {
    match x
    case Begin(c, node, messageId) => s.(calls := s.calls[c := Request(node, messageId, 0, Numbering)])
    case Number(c) =>
      var q := s.calls[c];
      var k := Seq(s, q.node) + 1;
      s.(seqs := s.seqs[q.node := k], calls := s.calls[c := q.(corrId := k, phase := Storing)], numbered := s.numbered[(q.node, k) := c])
    case Store(c) => Goto(s.(waiters := s.waiters[Key(s.calls[c]) := c]), c, Publishing)
    case Publish(c) => Goto(s.(asked := s.asked + {AskedBy(s, c)}), c, Waiting)
    case FailPublish(c, sent) =>
      Goto(s.(asked := if sent then s.asked + {AskedBy(s, c)} else s.asked, ended := s.ended[c := PublishError]), c, Leaving(PublishFailed))
    case Receive(c) =>
      var r := Chan(s, c)[0];
      Goto(s.(chans := s.chans[c := Chan(s, c)[1..]], ended := s.ended[c := Delivered]), c,
           Leaving(if r.messageId == s.calls[c].messageId then Response(r) else Mismatch))
    case Timeout(c) => Goto(s.(ended := s.ended[c := Deadline]), c, Leaving(TimedOut))
    case Return(c) => Goto(s.(waiters := s.waiters - {Key(s.calls[c])}), c, Returned(s.calls[c].phase.outcome))
    case Serve(a, body) => s.(replies := s.replies + {Reply(a.to, a.corrId, a.messageId, body, a.call)}, served := s.served + {(a, body)})
    case Load(p, r) =>
      if (r.to, r.corrId) in s.waiters then
        var c := s.waiters[(r.to, r.corrId)];
        s.(waiters := s.waiters - {(r.to, r.corrId)}, pumps := s.pumps[p := (c, r)], taken := s.taken[c := p], loaded := s.loaded[c := r])
      else s
    case Send(p) =>
      var (c, r) := s.pumps[p];
      s.(pumps := s.pumps - {p}, chans := if |Chan(s, c)| < 1 then s.chans[c := Chan(s, c) + [r]] else s.chans)
  }

  // ----- the invariant

  predicate HasNumber(q: Request) { !q.phase.Numbering? }

  /** A correlation ID belongs to one call of its node. */
  predicate NumberOk(s: State, n: Node, k: nat) {
    (n, k) in s.numbered ==>
      var c := s.numbered[(n, k)];
      0 < k <= Seq(s, n) && c in s.calls && HasNumber(s.calls[c]) && Key(s.calls[c]) == (n, k)
  }

  predicate Pending(q: Request) {
    q.phase.Publishing? || q.phase.Waiting? || q.phase.Leaving?
  }

  predicate WaiterOk(s: State, n: Node, k: nat) {
    (n, k) in s.waiters ==>
      var c := s.waiters[(n, k)];
      c in s.calls && Key(s.calls[c]) == (n, k) && Pending(s.calls[c]) && c !in s.taken
  }

  /** What the network carries tells the truth about the call it is about. */
  predicate AskedOk(s: State, a: Asked) {
    a in s.asked ==> a.call in s.calls && HasNumber(s.calls[a.call]) && a == AskedBy(s, a.call)
  }

  predicate ReplyOk(s: State, r: Reply) {
    r in s.replies ==>
      var a := Asked(r.to, r.corrId, r.messageId, r.call);
      r.call in s.calls && HasNumber(s.calls[r.call]) && a == AskedBy(s, r.call) && a in s.asked && (a, r.body) in s.served
  }

  /** Every answer of a peer is on the network. */
  predicate ServedOk(s: State, a: Asked, body: nat) {
    (a, body) in s.served ==> Reply(a.to, a.corrId, a.messageId, body, a.call) in s.replies
  }

  predicate PumpOk(s: State, p: Pump) {
    p in s.pumps ==>
      var (c, r) := s.pumps[p];
      c in s.taken && s.taken[c] == p && c in s.loaded && s.loaded[c] == r && r.call == c && r in s.replies && Chan(s, c) == [] && c in s.calls
      && (s.calls[c].phase.Leaving? || s.calls[c].phase.Returned? ==> !s.calls[c].phase.outcome.Response?)
  }

  predicate InPump(s: State, c: Call) {
    c in s.taken && s.taken[c] in s.pumps && s.pumps[s.taken[c]].0 == c
  }

  /** A request that was published is there to be answered, and its waiter can be found until a pump takes it.
      What that pump has sent is in the channel until it is received. */
  predicate DeliveryOk(s: State, c: Call) {
    (c in s.ended ==> c in s.calls) && (c in s.calls ==>
      var q := s.calls[c];
      && (q.phase.Waiting? ==> AskedBy(s, c) in s.asked)
      && (q.phase.Publishing? || q.phase.Waiting? ==> c in s.taken || (Key(q) in s.waiters && s.waiters[Key(q)] == c))
      && (c in s.taken ==> c in s.loaded)
      && (c in s.taken && !InPump(s, c) ==>
            if Received(q) then q.phase.outcome.r == s.loaded[c] else Chan(s, c) == [s.loaded[c]])
      && (q.phase.Leaving? || q.phase.Returned? <==> c in s.ended)
      && (c in s.ended ==> q.phase.outcome == Result(s, c)))
  }

  predicate Received(q: Request) {
    (q.phase.Leaving? || q.phase.Returned?) && q.phase.outcome.Response?
  }

  /** What the caller gets from what happened. */
  function Result(s: State, c: Call): Outcome
    requires c in s.ended
  {
    match s.ended[c]
    case Delivered => if c in s.loaded then Response(s.loaded[c]) else Mismatch
    case PublishError => PublishFailed
    case Deadline => TimedOut
  }

  /** Its waiter is still stored, or a pump has it, or the channel has the response, or it was
      received: at most one response gets through. */
  predicate CallOk(s: State, c: Call) {
    if c !in s.calls then Chan(s, c) == [] && c !in s.taken else
      var q := s.calls[c];
      && (HasNumber(q) ==> Key(q) in s.numbered && s.numbered[Key(q)] == c)
      && (c in s.taken ==> Key(q) !in s.waiters)
      && (Chan(s, c) != [] ==> c in s.taken && !InPump(s, c))
      && |Chan(s, c)| <= 1
      && (forall r | r in Chan(s, c) :: r in s.replies && r.call == c)
      && (q.phase.Returned? ==> Key(q) !in s.waiters)
      && ((q.phase.Leaving? || q.phase.Returned?) && q.phase.outcome.Response? ==>
            Chan(s, c) == [] && c in s.taken && !InPump(s, c) && q.phase.outcome.r in s.replies && q.phase.outcome.r.call == c)
      && (q.phase.Leaving? || q.phase.Returned? ==> !q.phase.outcome.Mismatch?)
      && (q.phase.Numbering? || q.phase.Storing? ==> c !in s.taken && Chan(s, c) == [])
  }

  ghost predicate Inv(s: State) {
    && (forall n: Node, k: nat :: NumberOk(s, n, k) && WaiterOk(s, n, k))
    && (forall a: Asked :: AskedOk(s, a))
    && (forall r: Reply :: ReplyOk(s, r))
    && (forall p: Pump :: PumpOk(s, p))
    && (forall c: Call :: CallOk(s, c) && DeliveryOk(s, c))
    && (forall a: Asked, body: nat :: ServedOk(s, a, body))
  }

  lemma StepKeeps(s: State, x: Step)
    requires Inv(s) && Enabled(s, x)
    ensures Inv(Next(s, x))
  {
    var t := Next(s, x);
    forall n: Node, k: nat ensures NumberOk(t, n, k) && WaiterOk(t, n, k) {
      NumberKeeps(s, x, n, k);
      WaiterKeeps(s, x, n, k);
    }
    forall a: Asked ensures AskedOk(t, a) { AskedKeeps(s, x, a); }
    forall r: Reply ensures ReplyOk(t, r) { ReplyKeeps(s, x, r); }
    forall p: Pump ensures PumpOk(t, p) { PumpKeeps(s, x, p); }
    forall c: Call ensures CallOk(t, c) && DeliveryOk(t, c) {
      CallKeeps(s, x, c);
      DeliveryKeeps(s, x, c);
    }
    forall a: Asked, body: nat ensures ServedOk(t, a, body) { assert ServedOk(s, a, body); }
  }

  lemma NumberKeeps(s: State, x: Step, n: Node, k: nat)
    requires Inv(s) && Enabled(s, x)
    ensures NumberOk(Next(s, x), n, k)
  {
    assert NumberOk(s, n, k);
  }

  lemma WaiterKeeps(s: State, x: Step, n: Node, k: nat)
    requires Inv(s) && Enabled(s, x)
    ensures WaiterOk(Next(s, x), n, k)
  {
    assert WaiterOk(s, n, k);
    if x.Store? { assert CallOk(s, x.c); }
    if x.Load? { assert WaiterOk(s, x.r.to, x.r.corrId); }
  }

  lemma AskedKeeps(s: State, x: Step, a: Asked)
    requires Inv(s) && Enabled(s, x)
    ensures AskedOk(Next(s, x), a)
  {
    assert AskedOk(s, a);
    KeptAsked(s, x, a);
  }

  lemma KeptAsked(s: State, x: Step, a: Asked)
    requires Enabled(s, x) && AskedOk(s, a)
    ensures AskedOk(Next(s, x), a)
  {}

  lemma ReplyKeeps(s: State, x: Step, r: Reply)
    requires Inv(s) && Enabled(s, x)
    ensures ReplyOk(Next(s, x), r)
  {
    assert ReplyOk(s, r);
    if x.Serve? { assert AskedOk(s, x.a); }
    KeptReply(s, x, r);
  }

  lemma KeptReply(s: State, x: Step, r: Reply)
    requires Enabled(s, x) && ReplyOk(s, r) && (x.Serve? ==> AskedOk(s, x.a))
    ensures ReplyOk(Next(s, x), r)
  {}

  lemma PumpKeeps(s: State, x: Step, p: Pump)
    requires Inv(s) && Enabled(s, x)
    ensures PumpOk(Next(s, x), p)
  {
    assert PumpOk(s, p);
    if p in s.pumps { assert CallOk(s, s.pumps[p].0); }
    match x {
      case Load(_, r) => if (r.to, r.corrId) in s.waiters { LoadsOwn(s, r); }
      case Send(q) => assert PumpOk(s, q);
      case Receive(c) => assert CallOk(s, c);
      case _ => KeptPump(s, x, p);
    }
  }

  lemma KeptPump(s: State, x: Step, p: Pump)
    requires Enabled(s, x) && PumpOk(s, p) && !x.Load? && !x.Send? && !x.Receive?
    requires p in s.pumps ==> CallOk(s, s.pumps[p].0)
    ensures PumpOk(Next(s, x), p)
  {}

  /** A reply that finds a waiter finds the waiter of the call it was built for. */
  lemma LoadsOwn(s: State, r: Reply)
    requires Inv(s) && r in s.replies && (r.to, r.corrId) in s.waiters
    ensures s.waiters[(r.to, r.corrId)] == r.call && Chan(s, r.call) == [] && r.call !in s.taken
    ensures r.call in s.calls && (s.calls[r.call].phase.Leaving? ==> !s.calls[r.call].phase.outcome.Response?)
    ensures !s.calls[r.call].phase.Returned?
  {
    assert ReplyOk(s, r) && WaiterOk(s, r.to, r.corrId) && CallOk(s, r.call);
    assert CallOk(s, s.waiters[(r.to, r.corrId)]);
  }

  lemma CallKeeps(s: State, x: Step, c: Call)
    requires Inv(s) && Enabled(s, x)
    ensures CallOk(Next(s, x), c)
  {
    assert CallOk(s, c);
    match x {
      case Load(_, _) => LoadKeeps(s, x, c);
      case Send(_) => SendKeeps(s, x, c);
      case Serve(_, _) => assert SameCall(s, Next(s, x), c);
      case _ => if x.c == c { OwnKeeps(s, x); } else if x.Number? { OtherNumber(s, x, c); } else if x.Store? { OtherStore(s, x, c); } else { OtherKeeps(s, x, c); }
    }
  }

  predicate SameCall(s: State, t: State, c: Call) {
    (c in s.calls <==> c in t.calls) && (c in s.calls ==> s.calls[c] == t.calls[c])
    && Chan(s, c) == Chan(t, c)
  }

  lemma LoadKeeps(s: State, x: Step, c: Call)
    requires Inv(s) && x.Load? && Enabled(s, x)
    ensures CallOk(Next(s, x), c)
  {
    assert CallOk(s, c);
    if (x.r.to, x.r.corrId) in s.waiters {
      LoadsOwn(s, x.r);
      assert WaiterOk(s, x.r.to, x.r.corrId);
    }
  }

  lemma SendKeeps(s: State, x: Step, c: Call)
    requires Inv(s) && x.Send? && Enabled(s, x)
    ensures CallOk(Next(s, x), c)
  {
    assert CallOk(s, c) && PumpOk(s, x.p);
  }

  lemma OwnKeeps(s: State, x: Step)
    requires Inv(s) && !x.Load? && !x.Send? && !x.Serve? && Enabled(s, x)
    ensures CallOk(Next(s, x), x.c)
  {
    assert CallOk(s, x.c);
    match x {
      case Number(c) =>
        assert WaiterOk(s, s.calls[c].node, Seq(s, s.calls[c].node) + 1);
        NumberStep(s, x);
      case Receive(c) =>
        assert Chan(s, c)[0] in Chan(s, c);
        assert ReplyOk(s, Chan(s, c)[0]);
        ReceiveStep(s, x);
      case _ => PhaseStep(s, x);
    }
  }

  lemma NumberStep(s: State, x: Step)
    requires x.Number? && Enabled(s, x) && CallOk(s, x.c)
    ensures CallOk(Next(s, x), x.c)
  {}

  lemma ReceiveStep(s: State, x: Step)
    requires x.Receive? && Enabled(s, x) && CallOk(s, x.c) && ReplyOk(s, Chan(s, x.c)[0])
    ensures CallOk(Next(s, x), x.c)
  {
    assert Chan(s, x.c)[0] in Chan(s, x.c);
  }

  lemma PhaseStep(s: State, x: Step)
    requires !x.Load? && !x.Send? && !x.Serve? && !x.Number? && !x.Receive? && Enabled(s, x) && CallOk(s, x.c)
    ensures CallOk(Next(s, x), x.c)
  {}

  lemma OtherNumber(s: State, x: Step, c: Call)
    requires Inv(s) && x.Number? && Enabled(s, x) && x.c != c
    ensures CallOk(Next(s, x), c)
  {
    assert CallOk(s, c);
    if c in s.calls { assert NumberOk(s, s.calls[c].node, s.calls[c].corrId); }
  }

  lemma OtherKeeps(s: State, x: Step, c: Call)
    requires Inv(s) && !x.Load? && !x.Send? && !x.Serve? && !x.Number? && !x.Store? && Enabled(s, x) && x.c != c
    ensures CallOk(Next(s, x), c)
  {
    assert CallOk(s, c);
    OtherFrame(s, x, c);
    KeptCall(s, Next(s, x), c);
  }

  lemma OtherFrame(s: State, x: Step, c: Call)
    requires !x.Load? && !x.Send? && !x.Serve? && !x.Number? && !x.Store? && Enabled(s, x) && x.c != c
    ensures SameCall(s, Next(s, x), c) && SameTraffic(s, Next(s, x))
  {}

  /** No waiter is added, and pumps and replies are as before. */
  ghost predicate SameTraffic(s: State, t: State) {
    t.taken == s.taken && t.pumps == s.pumps && t.replies == s.replies && t.numbered == s.numbered
    && forall k | k in t.waiters :: k in s.waiters
  }

  lemma KeptCall(s: State, t: State, c: Call)
    requires CallOk(s, c) && SameCall(s, t, c) && SameTraffic(s, t)
    ensures CallOk(t, c)
  {}

  lemma OtherStore(s: State, x: Step, c: Call)
    requires Inv(s) && x.Store? && Enabled(s, x) && x.c != c
    ensures CallOk(Next(s, x), c)
  {
    assert CallOk(s, c) && CallOk(s, x.c);
  }

  lemma DeliveryKeeps(s: State, x: Step, c: Call)
    requires Inv(s) && Enabled(s, x)
    ensures DeliveryOk(Next(s, x), c)
  {
    assert CallOk(s, c) && DeliveryOk(s, c);
    match x {
      case Load(_, r) =>
        if (r.to, r.corrId) in s.waiters {
          LoadsOwn(s, r);
          assert ReplyOk(s, r);
          LoadDelivery(s, x, c);
        }
      case Send(p) =>
        assert PumpOk(s, p);
        SendDelivery(s, x, c);
      case Serve(_, _) => assert SameCall(s, Next(s, x), c);
      case _ => CallerDelivery(s, x, c);
    }
  }

  /** The steps of calls. */
  lemma CallerDelivery(s: State, x: Step, c: Call)
    requires Inv(s) && !x.Load? && !x.Send? && !x.Serve? && Enabled(s, x)
    ensures DeliveryOk(Next(s, x), c)
  {
    assert CallOk(s, c) && DeliveryOk(s, c) && CallOk(s, x.c);
    if x.c != c {
      if x.Return? { ReturnDelivery(s, x, c); } else { OtherDelivery(s, x, c); }
    } else if x.Receive? {
      assert Chan(s, c)[0] in Chan(s, c);
      assert ReplyOk(s, Chan(s, c)[0]);
      ReceiveDelivery(s, x);
    } else if !x.Return? {
      OwnDelivery(s, x);
    }
  }

  lemma LoadDelivery(s: State, x: Step, c: Call)
    requires x.Load? && Enabled(s, x) && CallOk(s, c) && DeliveryOk(s, c) && (x.r.to, x.r.corrId) in s.waiters
    requires s.waiters[(x.r.to, x.r.corrId)] == x.r.call && x.r.call !in s.taken
    requires x.r.call in s.calls && Key(s.calls[x.r.call]) == (x.r.to, x.r.corrId)
    ensures DeliveryOk(Next(s, x), c)
  {}

  lemma SendDelivery(s: State, x: Step, c: Call)
    requires x.Send? && Enabled(s, x) && CallOk(s, c) && DeliveryOk(s, c) && PumpOk(s, x.p)
    ensures DeliveryOk(Next(s, x), c)
  {}

  lemma ReceiveDelivery(s: State, x: Step)
    requires x.Receive? && Enabled(s, x) && CallOk(s, x.c) && DeliveryOk(s, x.c) && ReplyOk(s, Chan(s, x.c)[0])
    ensures DeliveryOk(Next(s, x), x.c)
  {
    assert Chan(s, x.c)[0] in Chan(s, x.c);
  }

  lemma OwnDelivery(s: State, x: Step)
    requires !x.Load? && !x.Send? && !x.Serve? && !x.Receive? && !x.Return? && Enabled(s, x)
    requires CallOk(s, x.c) && DeliveryOk(s, x.c)
    ensures DeliveryOk(Next(s, x), x.c)
  {}

  /** A call that returns takes only its own waiter out. */
  lemma ReturnDelivery(s: State, x: Step, c: Call)
    requires x.Return? && Enabled(s, x) && x.c != c && DeliveryOk(s, c)
    requires CallOk(s, c) && CallOk(s, x.c)
    ensures DeliveryOk(Next(s, x), c)
  {}

  lemma OtherDelivery(s: State, x: Step, c: Call)
    requires !x.Load? && !x.Send? && !x.Serve? && !x.Return? && Enabled(s, x) && x.c != c && CallOk(s, c) && DeliveryOk(s, c)
    requires CallOk(s, x.c)
    ensures DeliveryOk(Next(s, x), c)
  {
    DeliveryFrame(s, x, c);
    if c in s.calls && HasNumber(s.calls[c]) && Key(s.calls[c]) in s.waiters { WaiterFrame(s, x, c); }
    KeptDelivery(s, Next(s, x), c);
  }

  ghost predicate SameDelivery(s: State, t: State, c: Call) {
    SameCall(s, t, c) && t.taken == s.taken && t.loaded == s.loaded && t.pumps == s.pumps && s.asked <= t.asked
    && (c in s.ended <==> c in t.ended) && (c in s.ended ==> s.ended[c] == t.ended[c])
  }

  lemma DeliveryFrame(s: State, x: Step, c: Call)
    requires !x.Load? && !x.Send? && !x.Serve? && !x.Return? && Enabled(s, x) && x.c != c
    ensures SameDelivery(s, Next(s, x), c)
  {}

  lemma WaiterFrame(s: State, x: Step, c: Call)
    requires !x.Load? && !x.Send? && !x.Serve? && !x.Return? && Enabled(s, x) && x.c != c && CallOk(s, c) && CallOk(s, x.c)
    requires c in s.calls && HasNumber(s.calls[c]) && Key(s.calls[c]) in s.waiters
    ensures var k := Key(s.calls[c]); k in Next(s, x).waiters && Next(s, x).waiters[k] == s.waiters[k]
  {}

  lemma KeptDelivery(s: State, t: State, c: Call)
    requires DeliveryOk(s, c) && SameDelivery(s, t, c)
    requires c in s.calls && HasNumber(s.calls[c]) && Key(s.calls[c]) in s.waiters ==>
      Key(s.calls[c]) in t.waiters && t.waiters[Key(s.calls[c])] == s.waiters[Key(s.calls[c])]
    ensures DeliveryOk(t, c)
  {}

  // ----- whole runs

  predicate StepTo(s: State, x: Step, t: State) {
    Enabled(s, x) && Next(s, x) == t
  }

  ghost predicate Runs(s: State, steps: seq<Step>, t: State) {
    Leads(StepTo, s, steps, t)
  }

  lemma RunsKeep(s: State, steps: seq<Step>, t: State)
    requires Inv(s) && Runs(s, steps, t)
    ensures Inv(t)
  {
    forall u, x, v | Inv(u) && StepTo(u, x, v) ensures Inv(v) { StepKeeps(u, x); }
    Keeps(StepTo, Inv, s, steps, t);
  }

  ghost predicate Reachable(s: State) {
    exists steps :: Runs(Initial(), steps, s)
  }

  lemma ReachableInv(s: State)
    requires Reachable(s)
    ensures Inv(s)
  {
    var steps :| Runs(Initial(), steps, s);
    RunsKeep(Initial(), steps, s);
  }

  predicate Succeeded(s: State, c: Call) {
    c in s.calls && s.calls[c].phase.Returned? && s.calls[c].phase.outcome.Response?
  }

  /** A Request that succeeds returns a response that a peer built for this very request. */
  lemma OwnResponse(s: State, c: Call)
    requires Reachable(s) && Succeeded(s, c)
    ensures var r := s.calls[c].phase.outcome.r;
      r in s.replies && r.call == c && r.messageId == s.calls[c].messageId && AskedBy(s, c) in s.asked
  {
    ReachableInv(s);
    assert CallOk(s, c) && ReplyOk(s, s.calls[c].phase.outcome.r);
  }

  /** However often responses are repeated, a call is sent at most one, the buffered channel has room
      for it, and it never fails the correlation check. */
  lemma OneResponse(s: State, c: Call)
    requires Reachable(s)
    ensures |Chan(s, c)| <= 1
    ensures forall p | p in s.pumps && s.pumps[p].0 == c :: Chan(s, c) == [] && !Succeeded(s, c)
    ensures forall p, q | p in s.pumps && q in s.pumps && s.pumps[p].0 == s.pumps[q].0 == c :: p == q
    ensures Succeeded(s, c) ==> Chan(s, c) == [] && forall p | p in s.pumps :: s.pumps[p].0 != c
    ensures c in s.calls && s.calls[c].phase.Returned? ==> !s.calls[c].phase.outcome.Mismatch?
  {
    ReachableInv(s);
    assert CallOk(s, c);
    forall p | p in s.pumps && s.pumps[p].0 == c ensures c in s.taken && s.taken[c] == p && Chan(s, c) == [] && !Succeeded(s, c) {
      assert PumpOk(s, p);
    }
  }

  /** Every Request that has returned got what happened to it: the response that the pump loaded when it was
      received, the error of its publish, or the timeout. The response carries what a peer answered to this
      very request. */
  lemma OutcomeOfCall(s: State, c: Call)
    requires Reachable(s) && c in s.calls && s.calls[c].phase.Returned?
    ensures c in s.ended
    ensures match s.ended[c]
      case Delivered =>
        c in s.loaded && s.calls[c].phase.outcome == Response(s.loaded[c]) && (AskedBy(s, c), s.loaded[c].body) in s.served
      case PublishError => s.calls[c].phase.outcome == PublishFailed
      case Deadline => s.calls[c].phase.outcome == TimedOut
  {
    ReachableInv(s);
    assert CallOk(s, c) && DeliveryOk(s, c);
    if s.calls[c].phase.outcome.Response? { assert ReplyOk(s, s.calls[c].phase.outcome.r); }
  }

  /** A response that finds its waiter arrives: once the pump that took the waiter of a waiting call has sent,
      the response it loaded is in the channel, and receiving it is a success. */
  lemma LoadedArrives(s: State, c: Call)
    requires Reachable(s) && In(s, c, Waiting) && c in s.taken && !InPump(s, c)
    ensures c in s.loaded && Chan(s, c) == [s.loaded[c]] && Enabled(s, Receive(c))
    ensures In(Next(s, Receive(c)), c, Leaving(Response(s.loaded[c])))
  {
    ReachableInv(s);
    assert CallOk(s, c) && DeliveryOk(s, c);
    assert s.loaded[c] in Chan(s, c);
    assert ReplyOk(s, s.loaded[c]);
  }

  /** The reply is loaded by that pump, sent to its call's channel and received. */
  predicate Arrives(s: State, p: Pump, r: Reply) {
    Enabled(s, Load(p, r)) &&
    var t := Next(s, Load(p, r));
    Enabled(t, Send(p)) &&
    var u := Next(t, Send(p));
    Chan(u, r.call) == [r] && Enabled(u, Receive(r.call)) && In(Next(u, Receive(r.call)), r.call, Leaving(Response(r)))
  }

  /** A request that waits was sent, any answer can be given to it, and every answer that reaches a pump
      before its waiter is taken arrives. */
  lemma Delivery(s: State, p: Pump, c: Call, body: nat)
    requires Reachable(s) && In(s, c, Waiting) && c !in s.taken && p !in s.pumps
    ensures var a := AskedBy(s, c);
      var r := Reply(a.to, a.corrId, a.messageId, body, c);
      Enabled(s, Serve(a, body)) && Arrives(Next(s, Serve(a, body)), p, r) && ((a, body) in s.served ==> Arrives(s, p, r))
  {
    ReachableInv(s);
    assert CallOk(s, c) && DeliveryOk(s, c);
    var a := AskedBy(s, c);
    var r, t := Reply(a.to, a.corrId, a.messageId, body, c), Next(s, Serve(a, body));
    if (a, body) in s.served { ArrivesNow(s, p, r, a); }
    StepKeeps(s, Serve(a, body));
    Answering(s, a, body);
    ArrivesNow(t, p, r, a);
  }

  lemma Answering(s: State, a: Asked, body: nat)
    requires Enabled(s, Serve(a, body))
    ensures var t := Next(s, Serve(a, body)); (a, body) in t.served && t.calls == s.calls && t.taken == s.taken && t.pumps == s.pumps
  {}

  lemma ArrivesNow(s: State, p: Pump, r: Reply, a: Asked)
    requires Inv(s) && In(s, r.call, Waiting) && r.call !in s.taken && p !in s.pumps
    requires a == AskedBy(s, r.call) && r == Reply(a.to, a.corrId, a.messageId, r.body, r.call) && (a, r.body) in s.served
    ensures Arrives(s, p, r)
  {
    assert CallOk(s, r.call) && DeliveryOk(s, r.call) && ServedOk(s, a, r.body);
  }

  /** A request keeps the node and the message ID that it was begun with. */
  lemma RequestKept(s: State, c: Call, node: Node, messageId: nat, steps: seq<Step>, t: State)
    requires Enabled(s, Begin(c, node, messageId)) && Runs(Next(s, Begin(c, node, messageId)), steps, t)
    ensures c in t.calls && t.calls[c].node == node && t.calls[c].messageId == messageId
  {
    var inv := (u: State) => c in u.calls && u.calls[c].node == node && u.calls[c].messageId == messageId;
    forall u, x, v | inv(u) && StepTo(u, x, v) ensures inv(v) { NameKept(u, x, c); }
    Keeps(StepTo, inv, Next(s, Begin(c, node, messageId)), steps, t);
  }

  lemma NameKept(s: State, x: Step, c: Call)
    requires Enabled(s, x) && c in s.calls
    ensures var t := Next(s, x);
      c in t.calls && t.calls[c].node == s.calls[c].node && t.calls[c].messageId == s.calls[c].messageId
  {}

  /** The waiter table holds correlation IDs of pending calls only, each for the call it belongs to. */
  lemma WaitersPending(s: State, n: Node, k: nat)
    requires Reachable(s) && (n, k) in s.waiters
    ensures var c := s.waiters[(n, k)];
      c in s.calls && s.calls[c].node == n && s.calls[c].corrId == k && Pending(s.calls[c])
  {
    ReachableInv(s);
    assert WaiterOk(s, n, k);
  }

  /** Two calls at one node never share a correlation ID. */
  lemma NumbersUnique(s: State, c: Call, d: Call)
    requires Reachable(s) && c in s.calls && d in s.calls && HasNumber(s.calls[c]) && HasNumber(s.calls[d])
    requires Key(s.calls[c]) == Key(s.calls[d])
    ensures c == d
  {
    ReachableInv(s);
    assert CallOk(s, c) && CallOk(s, d);
  }
}
