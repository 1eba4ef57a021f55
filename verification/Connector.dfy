/** net/connector/connector.go: any number of InChan calls, the dispatcher that Start
    launches, and the Stop that wins, as interleaved steps around one mutex, one
    bounded channel and two WaitGroups. A WaitGroup is the set of calls that have
    added themselves and not yet called Done. */
module Connector {
  import opened Transitions
  import opened Sums

  type Socket = nat

  /** Where an InChan call is; the names between Locking and Handing hold handoffMu. */
  datatype Caller = Locking | Checking | Adding | Refusing | Handing | Leaving | Returned

  /** Start and then dispatch. NotRun: Start found the connector stopped. */
  datatype Dispatcher =
    | NotStarted | StartLocking | StartChecking | StartAdding | NotRun
    | Polling | Selecting | Got(s: Socket) | Closing(s: Socket) | Calling(s: Socket) | Exiting | Exited

  /** The Stop that won the compare-and-swap. */
  datatype Stopper = Before | Won | StopLocked | WaitHandoff | WaitDispatch | Draining | Over

  datatype Mutex = Free | HeldBy(s: Socket) | HeldByStart | HeldByStop

  datatype State = State(
    size: nat, chan: seq<Socket>, stopped: bool, done: bool, mu: Mutex,
    callers: map<Socket, Caller>, handoff: set<Socket>, dispatcher: Dispatcher, dispatching: bool, stopper: Stopper,
    closed: multiset<Socket>, called: multiset<Socket>)  // what was done to sockets

  datatype Step =
    | Arrive(s: Socket) | Lock(s: Socket) | Check(s: Socket) | Add(s: Socket) | Refuse(s: Socket)
    | Put(s: Socket) | Handover(s: Socket) | CloseLate(s: Socket) | Leave(s: Socket)
    | Start | StartLock | StartCheck | StartAdd
    | Poll | SelectDone | SelectConn | Load | CloseGot | CallBack | Exit
    | StopCas | StopLock | CloseDone | HandoffWaited | DispatchWaited | DrainOne | DrainEnd

  function Initial(size: nat): State {
    State(size, [], false, false, Free, map[], {}, NotStarted, false, Before, multiset{}, multiset{})
  }

  predicate Is(s: State, x: Socket, c: Caller) {
    x in s.callers && s.callers[x] == c
  }

  predicate Enabled(s: State, a: Step) {
    match a
    case Arrive(x) => x !in s.callers
    case Lock(x) => Is(s, x, Locking) && s.mu.Free?
    case Check(x) => Is(s, x, Checking)
    case Add(x) => Is(s, x, Adding)
    case Refuse(x) => Is(s, x, Refusing)
    case Put(x) => Is(s, x, Handing) && |s.chan| < s.size
    case Handover(x) => Is(s, x, Handing) && s.chan == [] && s.dispatcher.Selecting?
    case CloseLate(x) => Is(s, x, Handing) && s.done
    case Leave(x) => Is(s, x, Leaving)
    case Start => s.dispatcher.NotStarted?
    case StartLock => s.dispatcher.StartLocking? && s.mu.Free?
    case StartCheck => s.dispatcher.StartChecking?
    case StartAdd => s.dispatcher.StartAdding?
    case Poll => s.dispatcher.Polling?
    case SelectDone => s.dispatcher.Selecting? && s.done
    case SelectConn => s.dispatcher.Selecting? && s.chan != []
    case Load => s.dispatcher.Got?
    case CloseGot => s.dispatcher.Closing?
    case CallBack => s.dispatcher.Calling?
    case Exit => s.dispatcher.Exiting?
    case StopCas => !s.stopped && s.stopper.Before?
    case StopLock => s.stopper.Won? && s.mu.Free?
    case CloseDone => s.stopper.StopLocked?
    case HandoffWaited => s.stopper.WaitHandoff? && s.handoff == {}
    case DispatchWaited => s.stopper.WaitDispatch? && !s.dispatching
    case DrainOne => s.stopper.Draining? && s.chan != []
    case DrainEnd => s.stopper.Draining? && s.chan == []
  }

  function Next(s: State, a: Step): State
    requires Enabled(s, a)
  {
    match a
    case Arrive(x) => s.(callers := s.callers[x := Locking])
    case Lock(x) => s.(mu := HeldBy(x), callers := s.callers[x := Checking])
    case Check(x) =>
      if s.stopped then s.(mu := Free, callers := s.callers[x := Refusing])
      else s.(callers := s.callers[x := Adding])
    case Add(x) => s.(mu := Free, handoff := s.handoff + {x}, callers := s.callers[x := Handing])
    case Refuse(x) => s.(closed := s.closed + multiset{x}, callers := s.callers[x := Returned])
    case Put(x) => s.(chan := s.chan + [x], callers := s.callers[x := Leaving])
    case Handover(x) => s.(dispatcher := Got(x), callers := s.callers[x := Leaving])
    case CloseLate(x) => s.(closed := s.closed + multiset{x}, callers := s.callers[x := Leaving])
    case Leave(x) => s.(handoff := s.handoff - {x}, callers := s.callers[x := Returned])
    case Start => s.(dispatcher := StartLocking)
    case StartLock => s.(mu := HeldByStart, dispatcher := StartChecking)
    case StartCheck => if s.stopped then s.(mu := Free, dispatcher := NotRun) else s.(dispatcher := StartAdding)
    case StartAdd => s.(mu := Free, dispatching := true, dispatcher := Polling)
    case Poll => s.(dispatcher := if s.done then Exiting else Selecting)
    case SelectDone => s.(dispatcher := Exiting)
    case SelectConn => s.(dispatcher := Got(s.chan[0]), chan := s.chan[1..])
    case Load => s.(dispatcher := if s.stopped then Closing(s.dispatcher.s) else Calling(s.dispatcher.s))
    case CloseGot => s.(dispatcher := Polling, closed := s.closed + multiset{s.dispatcher.s})
    case CallBack => s.(dispatcher := Polling, called := s.called + multiset{s.dispatcher.s})
    case Exit => s.(dispatcher := Exited, dispatching := false)
    case StopCas => s.(stopped := true, stopper := Won)
    case StopLock => s.(mu := HeldByStop, stopper := StopLocked)
    case CloseDone => s.(mu := Free, done := true, stopper := WaitHandoff)
    case HandoffWaited => s.(stopper := WaitDispatch)
    case DispatchWaited => s.(stopper := Draining)
    case DrainOne => s.(chan := s.chan[1..], closed := s.closed + multiset{s.chan[0]})
    case DrainEnd => s.(stopper := Over)
  }

  // ----- the invariant

  predicate InHand(d: Dispatcher, x: Socket) {
    (d.Got? || d.Closing? || d.Calling?) && d.s == x
  }

  predicate Early(s: State, x: Socket) {
    x !in s.callers || s.callers[x].Locking? || s.callers[x].Checking? || s.callers[x].Adding?
    || s.callers[x].Refusing? || s.callers[x].Handing?
  }

  /** A socket is with its caller, in the channel once, in the dispatcher's hand, or
      disposed of once, and in one of these only. */
  ghost predicate SocketOk(s: State, x: Socket) {
    Places(s, x) == if Early(s, x) then 0 else 1
  }

  ghost function Places(s: State, x: Socket): nat {
    multiset(s.chan)[x] + Share(s, x)
  }

  /** Outside the channel. */
  ghost function Share(s: State, x: Socket): nat {
    (if InHand(s.dispatcher, x) then 1 else 0) + s.closed[x] + s.called[x]
  }

  /** handoffMu is held by whoever is in a locked part. */
  ghost predicate CallersHold(s: State) {
    && (forall x | x in s.callers :: s.callers[x].Checking? || s.callers[x].Adding? <==> s.mu == HeldBy(x))
    && (forall x :: s.mu == HeldBy(x) ==> x in s.callers)
  }

  predicate OthersHold(s: State) {
    && (s.dispatcher.StartChecking? || s.dispatcher.StartAdding? <==> s.mu.HeldByStart?)
    && (s.stopper.StopLocked? <==> s.mu.HeldByStop?)
  }

  ghost predicate LocksOk(s: State) {
    CallersHold(s) && OthersHold(s)
  }

  /** The flags follow Stop; nobody can still add itself once done is closed. */
  predicate FlagsOk(s: State) {
    && (s.stopped <==> !s.stopper.Before?)
    && (s.done <==> s.stopper.WaitHandoff? || s.stopper.WaitDispatch? || s.stopper.Draining? || s.stopper.Over?)
    && (s.done ==> !s.dispatcher.StartAdding? && forall x | x in s.callers :: !s.callers[x].Adding?)
  }

  /** The wait groups count whom they should. */
  ghost predicate HandoffOk(s: State) {
    forall x :: x in s.handoff <==> x in s.callers && (s.callers[x].Handing? || s.callers[x].Leaving?)
  }

  predicate DispatchOk(s: State) {
    s.dispatching <==> s.dispatcher.Polling? || s.dispatcher.Selecting? || s.dispatcher.Got? || s.dispatcher.Closing?
                       || s.dispatcher.Calling? || s.dispatcher.Exiting?
  }

  /** What Stop has waited for stays so. */
  predicate WaitedOk(s: State) {
    && (s.stopper.WaitDispatch? || s.stopper.Draining? || s.stopper.Over? ==> s.handoff == {})
    && (s.stopper.Draining? || s.stopper.Over? ==> !s.dispatching)
    && (s.stopper.Over? ==> s.chan == [])
  }

  ghost predicate StopOk(s: State) {
    FlagsOk(s) && HandoffOk(s) && DispatchOk(s) && WaitedOk(s)
  }

  /** Nobody closes a socket, or is about to, before Stop has set its mark, nor does the dispatcher leave before
      done is closed; and the channel keeps to its size. */
  ghost predicate ClosingOk(s: State) {
    && (!s.stopped ==> s.closed == multiset{} && !s.dispatcher.Closing? && forall x | x in s.callers :: !s.callers[x].Refusing?)
    && |s.chan| <= s.size
    && (s.dispatcher.NotRun? ==> s.stopped) && (s.dispatcher.Exiting? || s.dispatcher.Exited? ==> s.done)
  }

  ghost predicate Inv(s: State) {
    (forall x: Socket :: SocketOk(s, x)) && LocksOk(s) && StopOk(s) && ClosingOk(s)
  }

  lemma StepKeeps(s: State, a: Step)
    requires Inv(s) && Enabled(s, a)
    ensures Inv(Next(s, a))
  {
    var t := Next(s, a);
    StopKeeps(s, a);
    ClosingKeeps(s, a);
    forall x: Socket ensures SocketOk(t, x) {
      SocketKeeps(s, a, x);
    }
  }

  lemma ClosingKeeps(s: State, a: Step)
    requires ClosingOk(s) && FlagsOk(s) && Enabled(s, a)
    ensures ClosingOk(Next(s, a))
  {
    if ByCaller(a) { ClosingKeepsCaller(s, a); } else { ClosingKeepsOther(s, a); }
  }

  lemma ClosingKeepsCaller(s: State, a: Step)
    requires ClosingOk(s) && FlagsOk(s) && Enabled(s, a) && ByCaller(a)
    ensures ClosingOk(Next(s, a))
  {}

  lemma ClosingKeepsOther(s: State, a: Step)
    requires ClosingOk(s) && FlagsOk(s) && Enabled(s, a) && !ByCaller(a)
    ensures ClosingOk(Next(s, a))
  {
    OtherFrame(s, a);
  }

  lemma StopKeeps(s: State, a: Step)
    requires LocksOk(s) && StopOk(s) && Enabled(s, a)
    ensures LocksOk(Next(s, a)) && StopOk(Next(s, a))
  {
    LocksKeep(s, a);
    FlagsKeep(s, a);
    HandoffKeeps(s, a);
    DispatchKeeps(s, a);
    WaitedKeeps(s, a);
  }

  /** A step of an InChan call. */
  predicate ByCaller(a: Step) {
    a.Arrive? || a.Lock? || a.Check? || a.Add? || a.Refuse? || a.Put? || a.Handover? || a.CloseLate? || a.Leave?
  }

  lemma LocksKeep(s: State, a: Step)
    requires LocksOk(s) && Enabled(s, a)
    ensures LocksOk(Next(s, a))
  {
    OthersKeepLocks(s, a);
    if ByCaller(a) { CallersKeepLocks(s, a); } else { OtherFrame(s, a); OthersLeaveLocks(s, a); }
  }

  /** Start, the dispatcher and Stop take handoffMu when it is free and leave it to the calls that have it. */
  lemma OthersLeaveLocks(s: State, a: Step)
    requires OthersHold(s) && Enabled(s, a) && !ByCaller(a)
    ensures forall x: Socket :: Next(s, a).mu == HeldBy(x) <==> s.mu == HeldBy(x)
  {}

  /** They leave the calls alone, and the channel too, but for the receive and the drain. */
  lemma OtherFrame(s: State, a: Step)
    requires Enabled(s, a) && !ByCaller(a)
    ensures Next(s, a).callers == s.callers
    ensures !a.SelectConn? && !a.DrainOne? ==> Next(s, a).chan == s.chan
  {}

  lemma OthersKeepLocks(s: State, a: Step)
    requires LocksOk(s) && Enabled(s, a)
    ensures OthersHold(Next(s, a))
  {}

  lemma CallersKeepLocks(s: State, a: Step)
    requires LocksOk(s) && Enabled(s, a) && ByCaller(a)
    ensures CallersHold(Next(s, a))
  {}

  lemma FlagsKeep(s: State, a: Step)
    requires LocksOk(s) && FlagsOk(s) && Enabled(s, a)
    ensures FlagsOk(Next(s, a))
  {
    if ByCaller(a) { FlagsKeepCaller(s, a); } else { FlagsKeepOther(s, a); }
  }

  lemma FlagsKeepCaller(s: State, a: Step)
    requires LocksOk(s) && FlagsOk(s) && Enabled(s, a) && ByCaller(a)
    ensures FlagsOk(Next(s, a))
  {}

  lemma FlagsKeepOther(s: State, a: Step)
    requires LocksOk(s) && FlagsOk(s) && Enabled(s, a) && !ByCaller(a)
    ensures FlagsOk(Next(s, a))
  {}

  lemma HandoffKeeps(s: State, a: Step)
    requires HandoffOk(s) && Enabled(s, a)
    ensures HandoffOk(Next(s, a))
  {
    if ByCaller(a) { HandoffKeepsCaller(s, a); } else { HandoffKeepsOther(s, a); }
  }

  lemma HandoffKeepsCaller(s: State, a: Step)
    requires HandoffOk(s) && Enabled(s, a) && ByCaller(a)
    ensures HandoffOk(Next(s, a))
  {}

  lemma HandoffKeepsOther(s: State, a: Step)
    requires HandoffOk(s) && Enabled(s, a) && !ByCaller(a)
    ensures HandoffOk(Next(s, a))
  {}

  lemma DispatchKeeps(s: State, a: Step)
    requires DispatchOk(s) && Enabled(s, a)
    ensures DispatchOk(Next(s, a))
  {}

  lemma WaitedKeeps(s: State, a: Step)
    requires StopOk(s) && Enabled(s, a)
    ensures WaitedOk(Next(s, a))
  {
    if ByCaller(a) { WaitedKeepsCaller(s, a); } else { WaitedKeepsOther(s, a); }
  }

  lemma WaitedKeepsCaller(s: State, a: Step)
    requires StopOk(s) && Enabled(s, a) && ByCaller(a)
    ensures WaitedOk(Next(s, a))
  {}

  lemma WaitedKeepsOther(s: State, a: Step)
    requires StopOk(s) && Enabled(s, a) && !ByCaller(a)
    ensures WaitedOk(Next(s, a))
  {}

  lemma SocketKeeps(s: State, a: Step, x: Socket)
    requires SocketOk(s, x) && Enabled(s, a)
    ensures SocketOk(Next(s, a), x)
  {
    match a {
      case SelectConn => TakenKeeps(s, a, x);
      case DrainOne => TakenKeeps(s, a, x);
      case _ => if ByCaller(a) { CallerKeeps(s, a, x); } else { OtherKeeps(s, a, x); }
    }
  }

  lemma TakenKeeps(s: State, a: Step, x: Socket)
    requires SocketOk(s, x) && Enabled(s, a) && (a.SelectConn? || a.DrainOne?)
    ensures SocketOk(Next(s, a), x)
  {
    assert s.chan == [s.chan[0]] + s.chan[1..];
  }

  lemma CallerKeeps(s: State, a: Step, x: Socket)
    requires SocketOk(s, x) && Enabled(s, a) && ByCaller(a)
    ensures SocketOk(Next(s, a), x)
  {
    CallerEarly(s, a, x);
    CallerPlace(s, a, x);
  }

  /** The steps with which a call gives its socket away. */
  predicate Gives(a: Step) {
    a.Refuse? || a.Put? || a.Handover? || a.CloseLate?
  }

  lemma CallerEarly(s: State, a: Step, x: Socket)
    requires Enabled(s, a) && ByCaller(a)
    ensures if Gives(a) && x == a.s then Early(s, x) && !Early(Next(s, a), x) else Early(Next(s, a), x) == Early(s, x)
  {}

  lemma CallerPlace(s: State, a: Step, x: Socket)
    requires Enabled(s, a) && ByCaller(a)
    ensures Places(Next(s, a), x) == Places(s, x) + if Gives(a) && x == a.s then 1 else 0
  {
    if !a.Put? { assert Next(s, a).chan == s.chan; }
  }

  lemma OtherKeeps(s: State, a: Step, x: Socket)
    requires SocketOk(s, x) && Enabled(s, a) && !ByCaller(a) && !a.SelectConn? && !a.DrainOne?
    ensures SocketOk(Next(s, a), x)
  {
    OtherFrame(s, a);
    OtherShare(s, a, x);
  }

  lemma OtherShare(s: State, a: Step, x: Socket)
    requires Enabled(s, a) && !ByCaller(a) && !a.SelectConn? && !a.DrainOne?
    ensures Share(Next(s, a), x) == Share(s, x)
  {}

  // ----- whole runs

  predicate StepTo(s: State, a: Step, t: State) {
    Enabled(s, a) && Next(s, a) == t
  }

  ghost predicate Runs(s: State, steps: seq<Step>, t: State) {
    Leads(StepTo, s, steps, t)
  }

  lemma RunsKeep(s: State, steps: seq<Step>, t: State)
    requires Inv(s) && Runs(s, steps, t)
    ensures Inv(t)
  {
    forall u, a, v | Inv(u) && StepTo(u, a, v) ensures Inv(v) { StepKeeps(u, a); }
    Keeps(StepTo, Inv, s, steps, t);
  }

  ghost predicate Reachable(s: State) {
    exists size, steps :: Runs(Initial(size), steps, s)
  }

  lemma ReachableInv(s: State)
    requires Reachable(s)
    ensures Inv(s)
  {
    var size, steps :| Runs(Initial(size), steps, s);
    RunsKeep(Initial(size), steps, s);
  }

  lemma ReachedOneMore(s: State, a: Step)
    requires Reachable(s) && Enabled(s, a)
    ensures Reachable(Next(s, a))
  {
    var size, steps :| Runs(Initial(size), steps, s);
    Snoc(StepTo, Initial(size), steps, s, a, Next(s, a));
    assert Runs(Initial(size), steps + [a], Next(s, a));
  }

  /** In every run a socket is closed or handed to the callback at most once in all.
      When the winning Stop has returned, every socket whose InChan call has returned
      has been disposed of exactly once, and nothing is queued. */
  lemma DisposedOnce(s: State)
    requires Reachable(s)
    ensures forall x: Socket :: s.closed[x] + s.called[x] <= 1
    ensures s.stopper.Over? ==> s.chan == []
    ensures s.stopper.Over? ==> forall x | x in s.callers && s.callers[x].Returned? :: s.closed[x] + s.called[x] == 1
  {
    ReachableInv(s);
    forall x: Socket ensures s.closed[x] + s.called[x] <= 1 { assert SocketOk(s, x); }
    forall x | s.stopper.Over? && x in s.callers && s.callers[x].Returned? ensures s.closed[x] + s.called[x] == 1 {
      assert SocketOk(s, x);
    }
  }

  /** A socket is closed only once the connector has been stopped: before that every socket whose InChan call
      has returned is queued, in the dispatcher's hand or has been passed to the callback, once in all. */
  lemma PassedOn(s: State, x: Socket)
    requires Reachable(s)
    ensures s.closed[x] > 0 ==> s.stopped
    ensures !s.stopped && x in s.callers && (s.callers[x].Leaving? || s.callers[x].Returned?) ==>
      multiset(s.chan)[x] + (if InHand(s.dispatcher, x) then 1 else 0) + s.called[x] == 1
    ensures |s.chan| <= s.size && (s.dispatcher.NotRun? ==> s.stopped) && (s.dispatcher.Exited? ==> s.done && s.stopped)
  {
    ReachableInv(s);
    assert SocketOk(s, x);
  }

  /** The sockets passed on, or being so. */
  function Passed(s: State): multiset<Socket> {
    s.called + if s.dispatcher.Calling? then multiset{s.dispatcher.s} else multiset{}
  }

  lemma MarkedStep(s: State, a: Step)
    requires s.stopped && Enabled(s, a)
    ensures Next(s, a).stopped && Passed(Next(s, a)) == Passed(s)
  {
    if ByCaller(a) { CallerPasses(s, a); } else { OtherPasses(s, a); }
  }

  lemma CallerPasses(s: State, a: Step)
    requires s.stopped && Enabled(s, a) && ByCaller(a)
    ensures Next(s, a).stopped && Passed(Next(s, a)) == Passed(s)
  {}

  lemma OtherPasses(s: State, a: Step)
    requires s.stopped && Enabled(s, a) && !ByCaller(a)
    ensures Next(s, a).stopped && Passed(Next(s, a)) == Passed(s)
  {}

  /** From Stop's mark on at most the socket that the callback is being called for is still passed on. */
  lemma NoneAfterMark(s: State, steps: seq<Step>, t: State)
    requires s.stopped && Runs(s, steps, t)
    ensures t.stopped && t.called <= Passed(s)
  {
    var inv := (u: State) => u.stopped && Passed(u) == Passed(s);
    forall u, a, v | inv(u) && StepTo(u, a, v) ensures inv(v) { MarkedStep(u, a); }
    Keeps(StepTo, inv, s, steps, t);
  }

  /** After the winning Stop has returned no callback starts, and every later InChan
      call ends by closing its socket. */
  lemma QuietAfterStop(s: State, steps: seq<Step>, t: State)
    requires Inv(s) && s.stopper.Over? && Runs(s, steps, t)
    ensures t.called == s.called && t.chan == [] && t.stopper.Over? && !t.dispatcher.Calling?
    ensures forall x | x in t.callers && x !in s.callers && t.callers[x].Returned? :: t.closed[x] == 1
  {
    var inv := (u: State) => Inv(u) && u.stopper.Over? && u.called == s.called;
    forall u, a, v | inv(u) && StepTo(u, a, v) ensures inv(v) { StepKeeps(u, a); }
    Keeps(StepTo, inv, s, steps, t);
    forall x | x in t.callers && x !in s.callers && t.callers[x].Returned? ensures t.closed[x] == 1 {
      assert SocketOk(s, x) && SocketOk(t, x);
    }
  }

  // ----- the progress of Stop

  function StopWeight(p: Stopper): nat {
    match p
    case Before => 6 case Won => 5 case StopLocked => 4 case WaitHandoff => 3 case WaitDispatch => 2 case Draining => 1 case Over => 0
  }

  /** The stages of an InChan call that Stop may have to wait for, before and after done is closed. */
  function EarlyWeight(c: Caller): nat {
    match c case Locking => 9 case Checking => 8 case Adding => 7 case Handing => 6 case Leaving => 1 case _ => 0
  }

  function LateWeight(c: Caller): nat {
    match c case Handing => 6 case Leaving => 1 case _ => 0
  }

  function Weight(c: Caller, done: bool): nat {
    if done then LateWeight(c) else EarlyWeight(c)
  }

  function DispatcherWeight(d: Dispatcher): nat {
    match d
    case NotStarted => 7 case StartLocking => 6 case StartChecking => 5 case StartAdding => 4
    case Got(_) => 5 case Closing(_) => 4 case Calling(_) => 4 case Polling => 3 case Selecting => 2 case Exiting => 1
    case _ => 0
  }

  /** How much is left that Stop may have to wait for: its own stages, the sockets queued, the stages of
      the dispatcher and of the InChan calls that are already there. */
  ghost function Pending(s: State): nat {
    StopWeight(s.stopper) + 4 * |s.chan| + DispatcherWeight(s.dispatcher) + CallsPending(s.callers, s.done)
  }

  ghost function CallsPending(callers: map<Socket, Caller>, done: bool): nat {
    if done then Sum(callers, LateWeight) else Sum(callers, EarlyWeight)
  }

  /** Steps of calls that Stop does not wait for. */
  predicate Bystander(s: State, a: Step) {
    a.Arrive? || a.Refuse? || (s.done && (a.Lock? || a.Check?))
  }

  /** Once Stop has set its mark, no step adds to it but a new call; from the closing of done on not
      even that. Every step but those of bystanders takes from it. */
  lemma NeverMore(s: State, a: Step)
    requires FlagsOk(s) && !s.stopper.Before? && Enabled(s, a)
    ensures !a.Arrive? || s.done ==> Pending(Next(s, a)) <= Pending(s)
    ensures !Bystander(s, a) ==> Pending(Next(s, a)) < Pending(s)
  {
    if ByCaller(a) { CallerPending(s, a); } else { OtherPending(s, a); }
  }

  lemma CallerPending(s: State, a: Step)
    requires FlagsOk(s) && !s.stopper.Before? && Enabled(s, a) && ByCaller(a)
    ensures !a.Arrive? || s.done ==> Pending(Next(s, a)) <= Pending(s)
    ensures !Bystander(s, a) ==> Pending(Next(s, a)) < Pending(s)
  {
    var t := Next(s, a);
    if s.done { Update(s.callers, LateWeight, a.s, t.callers[a.s]); } else { Update(s.callers, EarlyWeight, a.s, t.callers[a.s]); }
    assert t.callers == s.callers[a.s := t.callers[a.s]] && t.done == s.done && t.stopper == s.stopper;
    CallerShare(s, a);
  }

  /** What the call itself gives up covers what it adds to the channel or the dispatcher. */
  lemma CallerShare(s: State, a: Step)
    requires FlagsOk(s) && !s.stopper.Before? && Enabled(s, a) && ByCaller(a)
    ensures var t := Next(s, a);
      a.s in t.callers &&
      var was := if a.s in s.callers then Weight(s.callers[a.s], s.done) else 0;
      var left := Weight(t.callers[a.s], s.done) + 4 * |t.chan| + DispatcherWeight(t.dispatcher);
      var had := was + 4 * |s.chan| + DispatcherWeight(s.dispatcher);
      (!a.Arrive? || s.done ==> left <= had) && (!Bystander(s, a) ==> left < had)
  {}

  lemma OtherPending(s: State, a: Step)
    requires FlagsOk(s) && !s.stopper.Before? && Enabled(s, a) && !ByCaller(a)
    ensures Pending(Next(s, a)) < Pending(s)
  {
    OtherFrame(s, a);
    OtherLess(s, a);
    Lighter(s.callers, LateWeight, EarlyWeight);
  }

  lemma OtherLess(s: State, a: Step)
    requires FlagsOk(s) && !s.stopper.Before? && Enabled(s, a) && !ByCaller(a)
    ensures var t := Next(s, a);
      (s.done ==> t.done) &&
      StopWeight(t.stopper) + 4 * |t.chan| + DispatcherWeight(t.dispatcher) < StopWeight(s.stopper) + 4 * |s.chan| + DispatcherWeight(s.dispatcher)
  {}

  /** A Stop on its way always gets on: some call that is already there, the dispatcher or Stop itself
      can take a step after which less is left; and nobody undoes that. */
  lemma StopAdvances(s: State)
    requires Reachable(s) && !s.stopper.Before? && !s.stopper.Over?
    ensures exists a :: Enabled(s, a) && !a.Arrive? && Pending(Next(s, a)) < Pending(s)
    ensures forall a | Enabled(s, a) && (a.Arrive? ==> s.done) :: Pending(Next(s, a)) <= Pending(s)
  {
    ReachableInv(s);
    forall a | Enabled(s, a) && (a.Arrive? ==> s.done) ensures Pending(Next(s, a)) <= Pending(s) { NeverMore(s, a); }
    AdvancingEnabled(s);
    NeverMore(s, Advancing(s));
  }

  /** The step that Stop waits for. */
  ghost function Advancing(s: State): Step
    requires LocksOk(s) && StopOk(s) && !s.stopper.Before? && !s.stopper.Over?
  {
    match s.stopper
    case Won => if s.mu.Free? then StopLock else if s.mu.HeldBy? then CallerStep(s, s.mu.s) else DispatcherStep(s.dispatcher)
    case StopLocked => CloseDone
    case WaitHandoff => if s.handoff == {} then HandoffWaited else (var x :| x in s.handoff; CallerStep(s, x))
    case WaitDispatch => if s.dispatching then DispatcherStep(s.dispatcher) else DispatchWaited
    case _ => if s.chan == [] then DrainEnd else DrainOne
  }

  function CallerStep(s: State, x: Socket): Step
    requires x in s.callers
  {
    match s.callers[x]
    case Checking => Check(x)
    case Adding => Add(x)
    case Handing => CloseLate(x)
    case _ => Leave(x)
  }

  function DispatcherStep(d: Dispatcher): Step {
    match d
    case StartChecking => StartCheck
    case StartAdding => StartAdd
    case Polling => Poll
    case Selecting => SelectDone
    case Got(_) => Load
    case Closing(_) => CloseGot
    case Calling(_) => CallBack
    case _ => Exit
  }

  lemma AdvancingEnabled(s: State)
    requires LocksOk(s) && StopOk(s) && !s.stopper.Before? && !s.stopper.Over?
    ensures Enabled(s, Advancing(s)) && !Bystander(s, Advancing(s))
  {}
}
