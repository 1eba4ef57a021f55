/** extend/time_wheel/delay_queue.go: the wake-up handshake between any number of
    Offer calls and the one Poll goroutine, as interleaved atomic steps. The queue
    is seen through the contracts of PriorityQueue: an Offer returns index 0 exactly
    when its priority is strictly the smallest, and PeekAndShift takes a minimum
    exactly when it is due. */
module Handshake {
  import opened PriorityQueues
  import opened Wrappers
  import opened Transitions

  /** An Offer that got index 0: about to try the compare-and-swap, or having won it
      and blocked on sending to wakeupC. */
  datatype Offer = Trying | Committed

  /** Where Poll is: before PeekAndShift; in its select (None: no timer, the queue
      was empty); after the timer case; receiving from wakeupC to release a sender;
      sending an expired element to C. */
  datatype Poller = Top | Waiting(until: Option<int>) | Fired | Draining | Sending(e: Entry)

  /** offered and delivered are history: what came in, and what went out to C, in order. */
  datatype State = State(q: multiset<Entry>, sleeping: bool, poller: Poller, offers: map<nat, Offer>,
                         offered: multiset<Entry>, delivered: seq<Entry>)

  datatype Step =
    | Push(id: nat, e: Entry)               // Offer, up to unlock
    | Cas(id: nat)                          // CompareAndSwap(&sleeping, 1, 0)
    | Wake(id: nat)                         // wakeupC, received in the select
    | Peek(now: int, first: Option<Entry>)  // PeekAndShift, first being a minimum if there is one,
                                            // and the store to sleeping, under the lock
    | Timeout                               // timer.C
    | Reset                                 // Swap(&sleeping, 0)
    | Drain(id: nat)                        // wakeupC, received after the swap
    | Deliver                               // C <- value

  const INIT := State(multiset{}, false, Top, map[], multiset{}, [])

  ghost predicate IsMin(q: multiset<Entry>, m: Entry) {
    m in q && forall x | x in q :: m.priority <= x.priority
  }

  ghost predicate Enabled(s: State, a: Step) {
    match a
    case Push(id, _) => id !in s.offers
    case Cas(id) => id in s.offers && s.offers[id].Trying?
    case Wake(id) => s.poller.Waiting? && id in s.offers && s.offers[id].Committed?
    case Peek(_, first) => s.poller.Top? && if first.None? then s.q == multiset{} else IsMin(s.q, first.value)
    case Timeout => s.poller.Waiting? && s.poller.until.Some?
    case Reset => s.poller.Fired?
    case Drain(id) => s.poller.Draining? && id in s.offers && s.offers[id].Committed?
    case Deliver => s.poller.Sending?
  }

  ghost function Next(s: State, a: Step): State
    requires Enabled(s, a)
  {
    match a
    case Push(id, e) =>
      s.(q := s.q + multiset{e}, offered := s.offered + multiset{e},
         offers := if forall x | x in s.q :: e.priority < x.priority then s.offers[id := Trying] else s.offers)
    case Cas(id) =>
      if s.sleeping then s.(sleeping := false, offers := s.offers[id := Committed])
      else s.(offers := s.offers - {id})
    case Wake(id) => s.(poller := Top, offers := s.offers - {id})
    case Peek(now, first) =>
      if first.None? then s.(sleeping := true, poller := Waiting(None))
      else
        var m := first.value;
        if m.priority <= now then s.(q := s.q - multiset{m}, poller := Sending(m))
        else s.(sleeping := true, poller := Waiting(Some(m.priority)))
    case Timeout => s.(poller := Fired)
    case Reset => if s.sleeping then s.(sleeping := false, poller := Top) else s.(poller := Draining)
    case Drain(id) => s.(poller := Top, offers := s.offers - {id})
    case Deliver => s.(poller := Top, delivered := s.delivered + [s.poller.e])
  }

  lemma HasMember(q: multiset<Entry>)
    ensures q == multiset{} || exists x :: x in q
  {
    if forall x :: x !in q {
      assert forall x :: q[x] == 0;
      assert q == multiset{};
    }
  }

  lemma {:induction false} MinExists(q: multiset<Entry>)
    requires q != multiset{}
    ensures exists m :: IsMin(q, m)
    decreases |q|
  {
    HasMember(q);
    var x :| x in q;
    var rest := q - multiset{x};
    if rest == multiset{} {
      Smaller(rest, x, x);
    } else {
      MinExists(rest);
      var m :| IsMin(rest, m);
      Smaller(rest, x, if m.priority <= x.priority then m else x);
    }
    assert q == rest + multiset{x};
  }

  lemma Smaller(rest: multiset<Entry>, x: Entry, m: Entry)
    requires m.priority <= x.priority && (m == x || m in rest) && forall y | y in rest :: m.priority <= y.priority
    ensures IsMin(rest + multiset{x}, m)
  {}

  /** Poll can always look at the queue. */
  lemma PeekEnabled(s: State, now: int)
    requires s.poller.Top?
    ensures exists first :: Enabled(s, Peek(now, first))
  {
    if s.q == multiset{} {
      assert Enabled(s, Peek(now, None));
    } else {
      MinExists(s.q);
      var m :| IsMin(s.q, m);
      assert Enabled(s, Peek(now, Some(m)));
    }
  }

  /** The item x comes before the moment the poller waits for. */
  predicate Before(x: Entry, until: Option<int>) {
    until.None? || x.priority < until.value
  }

  ghost predicate SomeoneWakes(offers: map<nat, Offer>) {
    exists id :: id in offers
  }

  ghost predicate HasCommitted(offers: map<nat, Offer>) {
    exists id :: id in offers && offers[id].Committed?
  }

  ghost predicate Inv(s: State) {
    // at most one Offer has won the compare-and-swap
    && (forall i, j | i in s.offers && j in s.offers && s.offers[i].Committed? && s.offers[j].Committed? :: i == j)
    // sleeping only while Poll is in its select or has just left it by the timer
    && (s.sleeping ==> s.poller.Waiting? || s.poller.Fired?)
    // there, sleeping is 0 exactly when some Offer has won; nowhere else has one won,
    // but for the one Poll is draining
    && (HasCommitted(s.offers) <==> !s.sleeping && (s.poller.Waiting? || s.poller.Fired? || s.poller.Draining?))
    // whoever made the queue's minimum earlier than the wait is still about to wake Poll
    && (s.poller.Waiting? ==> forall x | x in s.q && Before(x, s.poller.until) :: SomeoneWakes(s.offers))
    && Conserved(s)
  }

  /** What was offered is in the queue, has been delivered or is in Poll's hand. */
  predicate Conserved(s: State) {
    s.offered == s.q + multiset(s.delivered) + if s.poller.Sending? then multiset{s.poller.e} else multiset{}
  }

  lemma ConservedStep(s: State, a: Step)
    requires Conserved(s) && Enabled(s, a)
    ensures Conserved(Next(s, a))
  {}

  lemma StepKeeps(s: State, a: Step)
    requires Inv(s) && Enabled(s, a)
    ensures Inv(Next(s, a))
  {
    var t := Next(s, a);
    ConservedStep(s, a);
    match a
    case Push(id, e) =>
      PushKeeps(s, id, e);
    case Cas(id) =>
      CasKeeps(s, id);
    case Wake(id) =>
      assert forall i | i in t.offers :: i in s.offers && t.offers[i] == s.offers[i] && i != id;
    case Drain(id) =>
      assert forall i | i in t.offers :: i in s.offers && t.offers[i] == s.offers[i] && i != id;
    case Peek(_, _) =>
    case Timeout =>
    case Reset =>
    case Deliver =>
  }

  lemma PushKeeps(s: State, id: nat, e: Entry)
    requires Inv(s) && Enabled(s, Push(id, e))
    ensures Inv(Next(s, Push(id, e)))
  {
    ConservedStep(s, Push(id, e));
    var t := Next(s, Push(id, e));
    assert HasCommitted(t.offers) <==> HasCommitted(s.offers) by {
      if HasCommitted(s.offers) { var i :| i in s.offers && s.offers[i].Committed?; assert t.offers[i].Committed?; }
      if HasCommitted(t.offers) { var i :| i in t.offers && t.offers[i].Committed?; assert s.offers[i].Committed?; }
    }
    if s.poller.Waiting? {
      forall x | x in t.q && Before(x, t.poller.until) ensures SomeoneWakes(t.offers) {
        if forall y | y in s.q :: e.priority < y.priority {
          assert id in t.offers;
        } else {
          var y :| y in s.q && y.priority <= e.priority;
          assert Before(if x in s.q then x else y, s.poller.until);
        }
      }
    }
  }

  lemma CasKeeps(s: State, id: nat)
    requires Inv(s) && Enabled(s, Cas(id))
    ensures Inv(Next(s, Cas(id)))
  {
    ConservedStep(s, Cas(id));
    var t := Next(s, Cas(id));
    if s.sleeping {
      assert t.offers[id].Committed?;
    } else {
      if HasCommitted(s.offers) {
        var i :| i in s.offers && s.offers[i].Committed?;
        assert i in t.offers && t.offers[i].Committed?;
      }
      if HasCommitted(t.offers) { var i :| i in t.offers && t.offers[i].Committed?; assert s.offers[i].Committed?; }
    }
  }

  ghost predicate StepTo(s: State, x: Step, t: State) {
    Enabled(s, x) && Next(s, x) == t
  }

  ghost predicate Runs(s: State, steps: seq<Step>, t: State) {
    Leads(StepTo, s, steps, t)
  }

  lemma RunsKeep(s: State, steps: seq<Step>, t: State)
    requires Inv(s) && Runs(s, steps, t)
    ensures Inv(t)
  {
    forall u, x, v | Inv(u) && StepTo(u, x, v) ensures Inv(v) { StepKeeps(u, x); }
    Keeps(StepTo, Inv, s, steps, t);
  }

  ghost predicate Reachable(s: State) {
    exists steps :: Runs(INIT, steps, s)
  }

  lemma ReachableInv(s: State)
    requires Reachable(s)
    ensures Inv(s)
  {
    var steps :| Runs(INIT, steps, s);
    RunsKeep(INIT, steps, s);
  }

  lemma ReachedOneMore(s: State, x: Step)
    requires Reachable(s) && Enabled(s, x)
    ensures Reachable(Next(s, x))
  {
    var steps :| Runs(INIT, steps, s);
    Snoc(StepTo, INIT, steps, s, x, Next(s, x));
    assert Runs(INIT, steps + [x], Next(s, x));
  }

  /** In every interleaving: two Offers never both wait on wakeupC; one waits only
      while Poll is about to receive it; Poll never receives from wakeupC in vain
      after its timer; and Poll never waits past an item without an Offer that has
      committed to waking it, or will when it tries. */
  lemma NeverOversleeps(s: State)
    requires Reachable(s)
    ensures forall i, j | i in s.offers && j in s.offers && s.offers[i].Committed? && s.offers[j].Committed? :: i == j
    ensures forall i | i in s.offers && s.offers[i].Committed? ::
      !s.sleeping && (Enabled(s, Wake(i)) || Enabled(s, Drain(i)) || (s.poller.Fired? && Next(s, Reset).poller.Draining?))
    ensures s.poller.Draining? ==> exists i :: Enabled(s, Drain(i))
    ensures s.poller.Waiting? && (exists x :: x in s.q && Before(x, s.poller.until)) ==>
      (exists i :: Enabled(s, Wake(i))) || (exists i :: Enabled(s, Cas(i)) && Enabled(Next(s, Cas(i)), Wake(i)))
  {
    ReachableInv(s);
    if s.poller.Draining? {
      var i :| i in s.offers && s.offers[i].Committed?;
      assert Enabled(s, Drain(i));
    }
    if s.poller.Waiting? && exists x :: x in s.q && Before(x, s.poller.until) {
      assert SomeoneWakes(s.offers);
      var i :| i in s.offers;
      if s.sleeping {
        assert !HasCommitted(s.offers) ==> s.offers[i].Trying?;
        assert Enabled(s, Cas(i)) && Enabled(Next(s, Cas(i)), Wake(i));
      } else {
        var j :| j in s.offers && s.offers[j].Committed?;
        assert Enabled(s, Wake(j));
      }
    }
  }

  /** No element is lost or delivered twice, whatever the interleaving. */
  lemma NothingLost(s: State)
    requires Reachable(s)
    ensures s.offered == s.q + multiset(s.delivered) + if s.poller.Sending? then multiset{s.poller.e} else multiset{}
  {
    ReachableInv(s);
  }
}
