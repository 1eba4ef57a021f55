/** extend/time_wheel/delay_queue.go, Offer and Poll as an object around the heap. A method is what one
    goroutine does between two points where it may wait, and is a step or two of Handshake. */
module DelayQueues {
  import opened PriorityQueues
  import opened Handshake
  import opened Wrappers

  /** Whoever drains wakeupC finds an Offer that sends. */
  lemma SenderThere(s: State)
    requires Reachable(s) && s.poller.Draining?
    ensures exists id :: Enabled(s, Drain(id))
  {
    NeverOversleeps(s);
  }

  lemma PeekEffect(s: State, now: int, first: Option<Entry>)
    requires Enabled(s, Step.Peek(now, first))
    ensures Next(s, Step.Peek(now, first)) ==
      if first.Some? && first.value.priority <= now then s.(q := s.q - multiset{first.value}, poller := Sending(first.value))
      else s.(sleeping := true, poller := Waiting(if first.None? then None else Some(first.value.priority)))
  {}

  /** An item that came first, and the compare-and-swap after it. */
  lemma FirstEffect(s: State, id: nat, e: Entry)
    requires id !in s.offers && forall x | x in s.q :: e.priority < x.priority
    ensures Enabled(s, Push(id, e))
    ensures var t := s.(q := s.q + multiset{e}, offered := s.offered + multiset{e}, offers := s.offers[id := Trying]);
      Next(s, Push(id, e)) == t && Enabled(t, Cas(id)) &&
      Next(t, Cas(id)) == t.(sleeping := false, offers := if s.sleeping then s.offers[id := Committed] else s.offers)
  {
    Overwrite(s.offers, id, Trying, Committed);
    assert s.offers[id := Trying] - {id} == s.offers;
  }

  class DelayQueue {
    const pq: PriorityQueue
    var sleeping: bool
    ghost var s: State

    ghost predicate Valid()
      reads this, pq, pq.Repr()
    {
      pq.Valid() && this !in pq.Repr() && Reachable(s) && s.q == pq.Contents() && s.sleeping == sleeping
    }

    /** The heap's footprint grew by new objects only. */
    twostate predicate Grown()
      reads this, pq
    {
      forall o: object :: o in pq.Repr() && o !in old(pq.Repr()) ==> !old(allocated(o))
    }

    constructor (size: nat)
      requires size > 0
      ensures Valid() && s == INIT && fresh(pq) && fresh(pq.Repr())
    {
      pq := new PriorityQueue(size);
      sleeping := false;
      s := INIT;
      new;
      assert Runs(INIT, [], s);
    }

    ghost method Do(x: Step, t: State)
      requires Reachable(s) && StepTo(s, x, t)
      modifies this`s
      ensures Reachable(s) && s == t
    {
      ReachedOneMore(s, x);
      s := t;
    }

    /** Offer up to its send to wakeupC, which it owes exactly if its item became the only earliest
        one while Poll was asleep. id names the call. */
    method Offer(elem: Ref, expiration: int, ghost id: nat) returns (sends: bool)
      requires Valid() && id !in s.offers
      modifies this`sleeping, this`s, pq.Repr()
      ensures Valid() && Grown()
      ensures sends == (old(sleeping) && forall e | e in old(s).q :: expiration < e.priority)
      ensures s == old(s).(q := old(s).q + multiset{Entry(expiration, elem)}, offered := old(s).offered + multiset{Entry(expiration, elem)},
                           sleeping := old(sleeping) && !sends,
                           offers := if sends then old(s).offers[id := Committed] else old(s).offers)
    {
      var index := pq.Offer(elem, expiration);
      sends := TryWake(Entry(expiration, elem), index == 0, id);
    }

    /** After the unlock: the compare-and-swap, if the item is the first one. */
    method TryWake(ghost e: Entry, first: bool, ghost id: nat) returns (sends: bool)
      requires Reachable(s) && s.sleeping == sleeping && id !in s.offers
      requires first <==> forall x | x in s.q :: e.priority < x.priority
      modifies this`sleeping, this`s
      ensures Reachable(s) && s.sleeping == sleeping && sends == (old(sleeping) && first)
      ensures s == old(s).(q := old(s).q + multiset{e}, offered := old(s).offered + multiset{e}, sleeping := old(sleeping) && !sends,
                           offers := if sends then old(s).offers[id := Committed] else old(s).offers)
    {
      sends := first && sleeping;
      if first {
        sleeping := false;
        PushFirst(e, id);
      } else {
        Do(Push(id, e), s.(q := s.q + multiset{e}, offered := s.offered + multiset{e}));
      }
    }

    ghost method PushFirst(e: Entry, id: nat)
      requires Reachable(s) && id !in s.offers && forall x | x in s.q :: e.priority < x.priority
      modifies this`s
      ensures Reachable(s)
      ensures s == old(s).(q := old(s).q + multiset{e}, offered := old(s).offered + multiset{e}, sleeping := false,
                           offers := if old(s).sleeping then old(s).offers[id := Committed] else old(s).offers)
    {
      FirstEffect(s, id, e);
      var was := s;
      Do(Push(id, e), s.(q := s.q + multiset{e}, offered := s.offered + multiset{e}, offers := s.offers[id := Trying]));
      Do(Cas(id), s.(sleeping := false, offers := if was.sleeping then was.offers[id := Committed] else was.offers));
    }

    /** Poll under the lock: the element to deliver, or how long to wait, 0 for as long as it takes;
        first is the minimum of the heap, if any. */
    method Peek(now: int) returns (value: Item?, delta: int, ghost first: Option<Entry>)
      requires Valid() && s.poller.Top?
      modifies this`sleeping, this`s, pq.Repr()
      ensures Valid() && Grown()
      ensures if first.None? then old(s).q == multiset{} else IsMin(old(s).q, first.value)
      ensures value == null <==> first.None? || first.value.priority > now
      ensures value == null ==> s == old(s).(sleeping := true, poller := Waiting(if first.None? then None else Some(now + delta)))
      ensures value == null ==> delta == if first.None? then 0 else first.value.priority - now
      ensures value != null ==> first == Some(Entry(value.priority, value.value)) &&
                                s == old(s).(q := old(s).q - multiset{first.value}, poller := Sending(first.value))
    {
      value, delta, first := Shift(now);
      Settle(now, first, value != null, delta);
    }

    /** The store to sleeping, if nothing was taken. */
    method Settle(now: int, ghost first: Option<Entry>, taken: bool, ghost delta: int)
      requires Reachable(s) && s.sleeping == sleeping && s.poller.Top?
      requires if first.None? then s.q == multiset{} else IsMin(s.q, first.value)
      requires taken <==> first.Some? && first.value.priority <= now
      requires !taken && first.Some? ==> now + delta == first.value.priority
      modifies this`sleeping, this`s
      ensures Reachable(s) && s.sleeping == sleeping
      ensures taken ==> s == old(s).(q := old(s).q - multiset{first.value}, poller := Sending(first.value))
      ensures !taken ==> s == old(s).(sleeping := true, poller := Waiting(if first.None? then None else Some(now + delta)))
    {
      if !taken { sleeping := true; }
      PeekEffect(s, now, first);
      if taken {
        Do(Step.Peek(now, first), s.(q := s.q - multiset{first.value}, poller := Sending(first.value)));
      } else {
        Do(Step.Peek(now, first), s.(sleeping := true, poller := Waiting(if first.None? then None else Some(now + delta))));
      }
    }

    /** What PeekAndShift does to the heap; first is the minimum it looks at. */
    method Shift(now: int) returns (value: Item?, delta: int, ghost first: Option<Entry>)
      requires pq.Valid() && this !in pq.Repr()
      modifies pq.Repr()
      ensures pq.Valid() && this !in pq.Repr() && Grown()
      ensures first.None? <==> old(pq.Contents()) == multiset{}
      ensures first.Some? ==> IsMin(old(pq.Contents()), first.value)
      ensures value == null <==> first.None? || first.value.priority > now
      ensures value == null ==> pq.Contents() == old(pq.Contents()) && delta == if first.None? then 0 else first.value.priority - now
      ensures delta >= 0
      ensures value != null ==> first == Some(Entry(value.priority, value.value)) &&
                                pq.Contents() == old(pq.Contents()) - multiset{first.value}
    {
      value, delta := pq.PeekAndShift(now);
      first := None;
      if value != null {
        first := Some(Entry(value.priority, value.value));
      } else if delta != 0 {
        ghost var e :| IsMin(pq.Contents(), e) && e.priority == now + delta;
        first := Some(e);
      }
    }

    /** The timer case: Poll then receives from wakeupC exactly if some Offer is sending. */
    method TimerFired() returns (receives: bool)
      requires Valid() && s.poller.Waiting? && s.poller.until.Some?
      modifies this`sleeping, this`s
      ensures Valid() && receives == !old(sleeping) && (receives ==> exists id :: Enabled(s, Drain(id)))
      ensures s == old(s).(sleeping := false, poller := if receives then Draining else Top)
    {
      Fire();
      receives := !sleeping;
      sleeping := false;
      if receives { SenderThere(s); }
    }

    /** The timer case and the swap of sleeping. */
    ghost method Fire()
      requires Reachable(s) && s.poller.Waiting? && s.poller.until.Some?
      modifies this`s
      ensures Reachable(s) && s == old(s).(sleeping := false, poller := if old(s).sleeping then Top else Draining)
    {
      Do(Timeout, s.(poller := Fired));
      Do(Reset, s.(sleeping := false, poller := if s.sleeping then Top else Draining));
    }

    /** The receive from wakeupC, in the select or after the timer. */
    method Receive(ghost id: nat)
      requires Valid() && (s.poller.Waiting? || s.poller.Draining?) && id in s.offers && s.offers[id].Committed?
      modifies this`s
      ensures Valid() && s == old(s).(poller := Top, offers := old(s.offers) - {id})
    {
      ghost var back := s.(poller := Top, offers := s.offers - {id});
      if s.poller.Waiting? { Do(Wake(id), back); } else { Do(Drain(id), back); }
    }

    /** The send to C that a receiver takes: the element taken last, and Poll starts over. */
    method Deliver(ghost e: Entry)
      requires Valid() && s.poller == Sending(e)
      modifies this`s
      ensures Valid() && s == old(s).(poller := Top, delivered := old(s).delivered + [e])
    {
      Do(Step.Deliver, s.(poller := Top, delivered := s.delivered + [e]));
    }
  }

  /** An element that comes later but is due earlier wakes the poller, and both leave in order. */
  method Lifecycle(late: Ref, early: Ref)
  {
    var dq := new DelayQueue(16);
    Asleep(dq, late, early);
    Woken(dq, late, early);
    TimedOut(dq, late, early);
    Both(dq, late, early);
  }

  lemma Earliest(late: Ref, early: Ref, e: Entry)
    ensures IsMin(multiset{Entry(100, late)}, e) ==> e == Entry(100, late)
    ensures IsMin(multiset{Entry(100, late), Entry(50, early)}, e) ==> e == Entry(50, early)
  {
    if IsMin(multiset{Entry(100, late), Entry(50, early)}, e) { assert Entry(50, early) in multiset{Entry(100, late), Entry(50, early)}; }
  }

  method Asleep(dq: DelayQueue, late: Ref, early: Ref)
    requires dq.Valid() && dq.s == INIT
    modifies dq, dq.pq.Repr()
    ensures dq.Valid() && dq.Grown() && dq.s == INIT.(q := multiset{Entry(100, late)}, offered := multiset{Entry(100, late)}, sleeping := true, poller := Waiting(Some(100)))
  {
    var sends := dq.Offer(late, 100, 0);
    assert !sends && dq.s.q == multiset{Entry(100, late)};
    var value, delta, first := dq.Peek(40);
    Earliest(late, early, first.value);
    assert value == null && delta == 60;
  }

  method Woken(dq: DelayQueue, late: Ref, early: Ref)
    requires dq.Valid() && dq.s == INIT.(q := multiset{Entry(100, late)}, offered := multiset{Entry(100, late)}, sleeping := true, poller := Waiting(Some(100)))
    modifies dq, dq.pq.Repr()
    ensures dq.Valid() && dq.Grown() && dq.s == INIT.(q := multiset{Entry(100, late), Entry(50, early)}, offered := multiset{Entry(100, late), Entry(50, early)})
  {
    var sends := dq.Offer(early, 50, 1);
    assert sends && dq.s.offers == map[1 := Committed];
    assert map[1 := Committed] - {1} == map[];
    dq.Receive(1);
  }

  method TimedOut(dq: DelayQueue, late: Ref, early: Ref)
    requires dq.Valid() && dq.s == INIT.(q := multiset{Entry(100, late), Entry(50, early)}, offered := multiset{Entry(100, late), Entry(50, early)})
    modifies dq, dq.pq.Repr()
    ensures dq.Valid() && dq.Grown() && dq.s == old(dq.s)
  {
    var value, delta, first := dq.Peek(40);
    Earliest(late, early, first.value);
    assert value == null && delta == 10;
    var receives := dq.TimerFired();
    assert !receives;
  }

  method Both(dq: DelayQueue, late: Ref, early: Ref)
    requires dq.Valid() && dq.s == INIT.(q := multiset{Entry(100, late), Entry(50, early)}, offered := multiset{Entry(100, late), Entry(50, early)})
    modifies dq, dq.pq.Repr()
    ensures dq.Valid() && dq.s.q == multiset{} && dq.s.delivered == [Entry(50, early), Entry(100, late)]
  {
    TwoEntries(late, early);
    First(dq, 50, Entry(50, early));
    First(dq, 100, Entry(100, late));
  }

  lemma TwoEntries(late: Ref, early: Ref)
    ensures var a, b := Entry(50, early), Entry(100, late);
      && multiset{b, a} - multiset{a} == multiset{b} && multiset{b} - multiset{b} == multiset{}
      && [] + [a] + [b] == [a, b]
  {}

  /** The only earliest element leaves when it is due. */
  method First(dq: DelayQueue, now: int, e: Entry)
    requires dq.Valid() && dq.s.poller.Top? && e in dq.s.q && e.priority <= now
    requires forall x | x in dq.s.q :: x == e || e.priority < x.priority
    modifies dq, dq.pq.Repr()
    ensures dq.Valid() && dq.Grown()
    ensures dq.s == old(dq.s).(q := old(dq.s).q - multiset{e}, delivered := old(dq.s).delivered + [e])
  {
    var value, delta, first := dq.Peek(now);
    assert first == Some(e) && value != null && value.value == e.ref;
    dq.Deliver(e);
  }
}
