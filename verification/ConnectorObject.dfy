/** net/connector/connector.go as an object with a buffered channel, flags and counting wait groups.
    Each method is a stretch of one goroutine that nobody interrupts, and a run of Connector's steps. */
module Connectors {
  import opened C = Connector
  import opened Wrappers

  /** Who is counted by the wait groups, and what the flags say about Stop. */
  lemma Counted(s: State, x: Socket)
    requires Reachable(s)
    ensures x in s.handoff <==> x in s.callers && (s.callers[x].Handing? || s.callers[x].Leaving?)
    ensures s.dispatcher.Polling? ==> s.dispatching
    ensures s.dispatcher.NotStarted? ==> !s.dispatching
    ensures s.stopped <==> !s.stopper.Before?
  {
    ReachableInv(s);
    assert HandoffOk(s) && DispatchOk(s);
  }

  class Connector {
    const size: nat
    var connChan: seq<Socket>
    var stopped: bool
    var done: bool         // the channel done is closed
    var handoffWG: int
    var dispatchWG: int
    ghost var s: State

    ghost predicate Valid()
      reads this
    {
      Reachable(s) && s.chan == connChan && s.size == size && s.stopped == stopped && s.done == done &&
      handoffWG == |s.handoff| && dispatchWG == if s.dispatching then 1 else 0
    }

    constructor (size: nat)
      ensures Valid() && s == C.Initial(size)
    {
      this.size := size;
      connChan, stopped, done, handoffWG, dispatchWG := [], false, false, 0, 0;
      s := C.Initial(size);
      new;
      assert C.Runs(C.Initial(size), [], s);
    }

    ghost method Do(x: Step, t: State)
      requires Reachable(s) && StepTo(s, x, t)
      modifies this`s
      ensures Reachable(s) && s == t
    {
      ReachedOneMore(s, x);
      s := t;
    }

    /** Up to taking handoffMu. */
    ghost method BeginCall(conn: Socket)
      requires Reachable(s) && conn !in s.callers && s.mu.Free?
      modifies this`s
      ensures Reachable(s) && s == old(s).(mu := HeldBy(conn), callers := old(s.callers)[conn := Checking])
    {
      Do(Arrive(conn), s.(callers := s.callers[conn := Locking]));
      Do(Lock(conn), s.(mu := HeldBy(conn), callers := s.callers[conn := Checking]));
    }

    ghost method JoinHandoff(conn: Socket)
      requires Reachable(s) && conn !in s.callers && s.mu.Free? && !s.stopped
      modifies this`s
      ensures Reachable(s) && s == old(s).(handoff := old(s).handoff + {conn}, callers := old(s).callers[conn := Handing])
    {
      BeginCall(conn);
      var callers := s.callers;
      Do(Check(conn), s.(callers := s.callers[conn := Adding]));
      Overwrite(callers, conn, Adding, Handing);
      Overwrite(old(s).callers, conn, Checking, Handing);
      Do(Add(conn), s.(mu := Free, handoff := s.handoff + {conn}, callers := s.callers[conn := Handing]));
    }

    ghost method RefuseCall(conn: Socket)
      requires Reachable(s) && conn !in s.callers && s.mu.Free? && s.stopped
      modifies this`s
      ensures Reachable(s)
      ensures s == old(s).(closed := old(s).closed + multiset{conn}, callers := old(s).callers[conn := Caller.Returned])
    {
      BeginCall(conn);
      Do(Check(conn), s.(mu := Free, callers := s.callers[conn := Refusing]));
      Do(Refuse(conn), s.(closed := s.closed + multiset{conn}, callers := s.callers[conn := Caller.Returned]));
    }

    /** The locked part: false if the connector was stopped and the socket has been closed. */
    method Enter(conn: Socket) returns (ok: bool)
      requires Valid() && conn !in s.callers && s.mu.Free?
      modifies this`handoffWG, this`s
      ensures Valid() && handoffWG == old(handoffWG) + (if ok then 1 else 0) && ok == !stopped
      ensures s == if ok then old(s).(handoff := old(s).handoff + {conn}, callers := old(s).callers[conn := Handing])
                   else old(s).(closed := old(s).closed + multiset{conn}, callers := old(s).callers[conn := Caller.Returned])
    {
      Counted(s, conn);
      ok := !stopped;
      if ok {
        JoinHandoff(conn);
        handoffWG := handoffWG + 1;
      } else {
        RefuseCall(conn);
      }
    }

    /** The select and the deferred Done; handOver: which ready case is taken. */
    method HandOff(conn: Socket, handOver: bool)
      requires Valid() && Is(s, conn, Handing) && (if handOver then |connChan| < size else done)
      modifies this`connChan, this`handoffWG, this`s
      ensures Valid()
      ensures s == old(s).(chan := if handOver then old(s).chan + [conn] else old(s).chan,
                           closed := if handOver then old(s).closed else old(s).closed + multiset{conn},
                           handoff := old(s).handoff - {conn}, callers := old(s).callers[conn := Caller.Returned])
    {
      Counted(s, conn);
      if handOver {
        connChan := connChan + [conn];
        Queue(conn);
      } else {
        CloseLate(conn);
      }
      handoffWG := handoffWG - 1;
    }

    ghost method Queue(conn: Socket)
      requires Reachable(s) && Is(s, conn, Handing) && |s.chan| < s.size
      modifies this`s
      ensures Reachable(s)
      ensures s == old(s).(chan := old(s).chan + [conn], handoff := old(s).handoff - {conn},
                           callers := old(s).callers[conn := Caller.Returned])
    {
      Do(Put(conn), s.(chan := s.chan + [conn], callers := s.callers[conn := Leaving]));
      Overwrite(old(s).callers, conn, Leaving, Caller.Returned);
      Do(Leave(conn), s.(handoff := s.handoff - {conn}, callers := s.callers[conn := Caller.Returned]));
    }

    ghost method CloseLate(conn: Socket)
      requires Reachable(s) && Is(s, conn, Handing) && s.done
      modifies this`s
      ensures Reachable(s)
      ensures s == old(s).(closed := old(s).closed + multiset{conn}, handoff := old(s).handoff - {conn},
                           callers := old(s).callers[conn := Caller.Returned])
    {
      Do(Step.CloseLate(conn), s.(closed := s.closed + multiset{conn}, callers := s.callers[conn := Leaving]));
      Overwrite(old(s).callers, conn, Leaving, Caller.Returned);
      Do(Leave(conn), s.(handoff := s.handoff - {conn}, callers := s.callers[conn := Caller.Returned]));
    }

    /** A call that finds room or a stopped connector: the socket ends up queued or closed. */
    method InChan(conn: Socket)
      requires Valid() && conn !in s.callers && s.mu.Free? && (stopped || |connChan| < size)
      modifies this`connChan, this`handoffWG, this`s
      ensures Valid()
      ensures s == old(s).(chan := if stopped then old(s).chan else old(s).chan + [conn],
                           closed := if stopped then old(s).closed + multiset{conn} else old(s).closed,
                           callers := old(s).callers[conn := Caller.Returned])
    {
      Counted(s, conn);
      var ok := Enter(conn);
      if ok {
        HandOff(conn, true);
        assert old(s).handoff + {conn} - {conn} == old(s).handoff;
        Overwrite(old(s).callers, conn, Handing, Caller.Returned);
      }
    }

    method Start()
      requires Valid() && s.mu.Free? && s.dispatcher.NotStarted?
      modifies this`dispatchWG, this`s
      ensures Valid()
      ensures s == if stopped then old(s).(dispatcher := NotRun) else old(s).(dispatcher := Polling, dispatching := true)
    {
      Counted(s, 0);
      LockStart();
      if stopped {
        Do(StartCheck, s.(mu := Free, dispatcher := NotRun));
      } else {
        Launch();
        dispatchWG := dispatchWG + 1;
      }
    }

    ghost method LockStart()
      requires Reachable(s) && s.mu.Free? && s.dispatcher.NotStarted?
      modifies this`s
      ensures Reachable(s) && s == old(s).(mu := HeldByStart, dispatcher := StartChecking)
    {
      Do(Step.Start, s.(dispatcher := StartLocking));
      Do(StartLock, s.(mu := HeldByStart, dispatcher := StartChecking));
    }

    ghost method Launch()
      requires Reachable(s) && s.dispatcher.StartChecking? && !s.stopped
      modifies this`s
      ensures Reachable(s) && s == old(s).(mu := Free, dispatching := true, dispatcher := Polling)
    {
      Do(StartCheck, s.(dispatcher := StartAdding));
      Do(StartAdd, s.(mu := Free, dispatching := true, dispatcher := Polling));
    }

    /** One turn of dispatch, with a socket queued or done closed: prefers done, and closes a socket
        that it finds once the connector is stopped. */
    method DispatchTurn() returns (more: bool)
      requires Valid() && s.dispatcher.Polling? && (done || connChan != [])
      modifies this`connChan, this`dispatchWG, this`s
      ensures Valid() && more == !done
      ensures s == if !more then old(s).(dispatcher := Exited, dispatching := false)
                   else if stopped then old(s).(chan := old(s).chan[1..], closed := old(s).closed + multiset{old(s).chan[0]})
                   else old(s).(chan := old(s).chan[1..], called := old(s).called + multiset{old(s).chan[0]})
    {
      Counted(s, 0);
      if done {
        LeaveLoop();
        dispatchWG := dispatchWG - 1;
        return false;
      }
      TakeOldest();
      connChan := connChan[1..];
      Handle();
      more := true;
    }

    ghost method LeaveLoop()
      requires Reachable(s) && s.dispatcher.Polling? && s.done
      modifies this`s
      ensures Reachable(s) && s == old(s).(dispatcher := Exited, dispatching := false)
    {
      Do(Poll, s.(dispatcher := Exiting));
      Do(Exit, s.(dispatcher := Exited, dispatching := false));
    }

    ghost method TakeOldest()
      requires Reachable(s) && s.dispatcher.Polling? && !s.done && s.chan != []
      modifies this`s
      ensures Reachable(s) && s == old(s).(dispatcher := Got(old(s).chan[0]), chan := old(s).chan[1..])
    {
      Do(Poll, s.(dispatcher := Selecting));
      Do(SelectConn, s.(dispatcher := Got(s.chan[0]), chan := s.chan[1..]));
    }

    /** Closes a socket found after Stop, and passes any other one on. */
    method Handle()
      requires Valid() && s.dispatcher.Got?
      modifies this`s
      ensures Valid() && s == old(s).(dispatcher := Polling, closed := s.closed, called := s.called)
      ensures s.closed == if stopped then old(s.closed) + multiset{old(s).dispatcher.s} else old(s.closed)
      ensures s.called == if stopped then old(s.called) else old(s.called) + multiset{old(s).dispatcher.s}
    {
      ghost var conn := s.dispatcher.s;
      if stopped { CloseFound(conn); } else { PassOn(conn); }
    }

    ghost method CloseFound(conn: Socket)
      requires Reachable(s) && s.dispatcher == Got(conn) && s.stopped
      modifies this`s
      ensures Reachable(s) && s == old(s).(dispatcher := Polling, closed := old(s).closed + multiset{conn})
    {
      Do(Load, s.(dispatcher := Closing(conn)));
      Do(CloseGot, s.(dispatcher := Polling, closed := s.closed + multiset{conn}));
    }

    ghost method PassOn(conn: Socket)
      requires Reachable(s) && s.dispatcher == Got(conn) && !s.stopped
      modifies this`s
      ensures Reachable(s) && s == old(s).(dispatcher := Polling, called := old(s).called + multiset{conn})
    {
      Do(Load, s.(dispatcher := Calling(conn)));
      Do(CallBack, s.(dispatcher := Polling, called := s.called + multiset{conn}));
    }

    /** Stop up to its waits: marks the connector as stopped and closes done; a later Stop does nothing. */
    method BeginStop() returns (won: bool)
      requires Valid() && (!stopped ==> s.mu.Free?)
      modifies this`stopped, this`done, this`s
      ensures Valid() && won == !old(stopped) && stopped
      ensures s == if won then old(s).(stopped := true, done := true, stopper := WaitHandoff) else old(s)
    {
      if stopped { return false; }
      Counted(s, 0);
      stopped := true;
      Mark();
      Do(CloseDone, s.(mu := Free, done := true, stopper := WaitHandoff));
      done := true;
      won := true;
    }

    ghost method Mark()
      requires Reachable(s) && s.stopper.Before? && !s.stopped && s.mu.Free?
      modifies this`s
      ensures Reachable(s) && s == old(s).(stopped := true, mu := HeldByStop, stopper := StopLocked)
    {
      Do(StopCas, s.(stopped := true, stopper := Won));
      Do(StopLock, s.(mu := HeldByStop, stopper := StopLocked));
    }

    /** The rest of Stop, once its waits find both wait groups at zero: what was queued has been closed,
        and every socket whose InChan has returned was closed or passed on, once in all. */
    method FinishStop()
      requires Valid() && s.stopper.WaitHandoff? && handoffWG == 0 && dispatchWG == 0
      modifies this`connChan, this`s
      ensures Valid() && s == old(s).(chan := [], closed := old(s).closed + multiset(old(s).chan), stopper := Over)
      ensures forall x | x in s.callers && s.callers[x].Returned? :: s.closed[x] + s.called[x] == 1
    {
      assert s.handoff == {};
      Do(HandoffWaited, s.(stopper := WaitDispatch));
      Do(DispatchWaited, s.(stopper := Draining));
      CloseQueued();
      DisposedOnce(s);
    }

    method CloseQueued()
      requires Valid() && s.stopper.Draining?
      modifies this`connChan, this`s
      ensures Valid() && connChan == []
      ensures s == old(s).(chan := [], closed := old(s).closed + multiset(old(connChan)), stopper := Over)
    {
      CloseEach();
      Do(DrainEnd, s.(stopper := Over));
    }

    method CloseEach()
      requires Valid() && s.stopper.Draining?
      modifies this`connChan, this`s
      ensures Valid() && connChan == [] && s == old(s).(chan := [], closed := old(s).closed + multiset(old(connChan)))
    {
      while connChan != []
        invariant Valid() && s == old(s).(chan := connChan, closed := s.closed)
        invariant s.closed + multiset(connChan) == old(s).closed + multiset(old(connChan))
        decreases |connChan|
      {
        assert connChan == [connChan[0]] + connChan[1..];
        CloseFirst();
        connChan := connChan[1..];
      }
    }

    ghost method CloseFirst()
      requires Reachable(s) && s.stopper.Draining? && s.chan != []
      modifies this`s
      ensures Reachable(s) && s == old(s).(chan := old(s).chan[1..], closed := old(s).closed + multiset{old(s).chan[0]})
    {
      Do(DrainOne, s.(chan := s.chan[1..], closed := s.closed + multiset{s.chan[0]}));
    }
  }

  /** Two sockets: one is passed on, the other comes too late for the dispatcher and is closed. */
  method Lifecycle(first: Socket, second: Socket)
    requires first != second
  {
    var c := new Connector(2);
    c.InChan(first);
    c.Start();
    var more := c.DispatchTurn();
    assert more && c.s.called == multiset{first} && c.connChan == [];
    c.InChan(second);
    var won := c.BeginStop();
    more := c.DispatchTurn();
    assert won && !more && c.connChan == [second];
    c.FinishStop();
    assert c.connChan == [] && c.s.called == multiset{first} && c.s.closed == multiset{second};
  }
}
