/** net/cluster/rabbitmq_cluster/cluster.go, incoming work: any number of enqueue calls around one
    mutex and one bounded channel, any number of workers, and the Stop that wins, as interleaved steps. */
module ClusterDrain {
  import opened Transitions
  import opened Sums

  type Delivery = nat
  type WorkerId = nat

  datatype Fate = Accepted | Overloaded | Ignored

  /** Where an enqueue call is; Checking, Submitting and Leaving hold submitMu. */
  datatype Enqueue = Locking | Checking | Submitting | Leaving(fate: Fate) | Done(fate: Fate)

  datatype Worker = Selecting | Working(d: Delivery) | Draining | DrainWorking(d: Delivery) | Exited

  datatype Stopper = Before | Entering | Marking | Closing | WaitWorkers | Over

  datatype Mutex = Free | HeldBy(d: Delivery) | HeldByStop

  datatype State = State(
    size: nat, work: seq<Delivery>, stopping: bool, stop: bool, mu: Mutex,
    calls: map<Delivery, Enqueue>, workers: map<WorkerId, Worker>, stopper: Stopper,
    taker: map<Delivery, WorkerId>, processed: multiset<Delivery>)  // who took a delivery, and what was processed

  datatype Step =
    | Arrive(d: Delivery) | Lock(d: Delivery) | Check(d: Delivery) | Submit(d: Delivery) | Unlock(d: Delivery)
    | Take(w: WorkerId) | Process(w: WorkerId) | SeeStop(w: WorkerId) | Exit(w: WorkerId)
    | StopBegin | StopLock | StopMark | StopClose | WorkersWaited

  function Initial(size: nat, ids: set<WorkerId>): State {
    State(size, [], false, false, Free, map[], map w | w in ids :: Selecting, Before, map[], multiset{})
  }

  predicate Is(s: State, d: Delivery, e: Enqueue) {
    d in s.calls && s.calls[d] == e
  }

  predicate Enabled(s: State, x: Step) {
    match x
    case Arrive(d) => d !in s.calls
    case Lock(d) => Is(s, d, Locking) && s.mu.Free?
    case Check(d) => Is(s, d, Checking)
    case Submit(d) => Is(s, d, Submitting)
    case Unlock(d) => d in s.calls && s.calls[d].Leaving?
    case Take(w) => w in s.workers && (s.workers[w].Selecting? || s.workers[w].Draining?) && s.work != []
    case Process(w) => w in s.workers && (s.workers[w].Working? || s.workers[w].DrainWorking?)
    case SeeStop(w) => w in s.workers && s.workers[w].Selecting? && s.stop
    case Exit(w) => w in s.workers && s.workers[w].Draining? && s.work == []
    case StopBegin => s.stopper.Before?
    case StopLock => s.stopper.Entering? && s.mu.Free?
    case StopMark => s.stopper.Marking?
    case StopClose => s.stopper.Closing?
    case WorkersWaited => s.stopper.WaitWorkers? && forall w | w in s.workers :: s.workers[w].Exited?
  }

  function Next(s: State, x: Step): State
    requires Enabled(s, x)
  {
    match x
    case Arrive(d) => s.(calls := s.calls[d := Locking])
    case Lock(d) => s.(mu := HeldBy(d), calls := s.calls[d := Checking])
    case Check(d) => s.(calls := s.calls[d := if s.stopping then Leaving(Ignored) else Submitting])
    case Submit(d) =>
      if |s.work| < s.size then s.(work := s.work + [d], calls := s.calls[d := Leaving(Accepted)])
      else s.(calls := s.calls[d := Leaving(Overloaded)])
    case Unlock(d) => s.(mu := Free, calls := s.calls[d := Done(s.calls[d].fate)])
    case Take(w) =>
      var d := s.work[0];
      s.(work := s.work[1..], taker := s.taker[d := w],
         workers := s.workers[w := if s.workers[w].Selecting? then Working(d) else DrainWorking(d)])
    case Process(w) =>
      s.(processed := s.processed + multiset{s.workers[w].d},
         workers := s.workers[w := if s.workers[w].Working? then Selecting else Draining])
    case SeeStop(w) => s.(workers := s.workers[w := Draining])
    case Exit(w) => s.(workers := s.workers[w := Exited])
    case StopBegin => s.(stopper := Entering)
    case StopLock => s.(mu := HeldByStop, stopper := Marking)
    case StopMark => s.(mu := Free, stopping := true, stopper := Closing)
    case StopClose => s.(stop := true, stopper := WaitWorkers)
    case WorkersWaited => s.(stopper := Over)
  }

  predicate WasAccepted(s: State, d: Delivery) {
    Is(s, d, Leaving(Accepted)) || Is(s, d, Done(Accepted))
  }

  predicate Busy(s: State, w: WorkerId, d: Delivery) {
    w in s.workers && (s.workers[w].Working? || s.workers[w].DrainWorking?) && s.workers[w].d == d
  }

  /** An accepted delivery is in the channel once, or with the worker that took it, or processed
      once, and in one of these only; any other is nowhere. */
  ghost predicate DeliveryOk(s: State, d: Delivery) {
    && multiset(s.work)[d] + (if d in s.taker && Busy(s, s.taker[d], d) then 1 else 0) + s.processed[d]
       == (if WasAccepted(s, d) then 1 else 0)
    && forall w | Busy(s, w, d) :: d in s.taker && s.taker[d] == w
  }

  /** The holder of submitMu is the one that says so. */
  ghost predicate LockOk(s: State) {
    && (s.stopper.Marking? <==> s.mu.HeldByStop?)
    && (forall d | d in s.calls :: s.mu == HeldBy(d) <==> s.calls[d].Checking? || s.calls[d].Submitting? || s.calls[d].Leaving?)
    && (forall d :: s.mu == HeldBy(d) ==> d in s.calls)
  }

  ghost predicate MarkOk(s: State) {
    && (s.stopping <==> s.stopper.Closing? || s.stopper.WaitWorkers? || s.stopper.Over?)
    && (s.stop <==> s.stopper.WaitWorkers? || s.stopper.Over?)
    && (s.stopping ==> forall d | d in s.calls :: !s.calls[d].Submitting?)
  }

  ghost predicate WorkersOk(s: State) {
    && (forall w | w in s.workers :: !s.workers[w].Selecting? && !s.workers[w].Working? ==> s.stop)
    && (forall w | w in s.workers :: s.workers[w].Exited? ==> s.work == [])
    && (s.stopper.Over? ==> forall w | w in s.workers :: s.workers[w].Exited?)
  }

  ghost predicate StopOk(s: State) {
    LockOk(s) && MarkOk(s) && WorkersOk(s)
  }

  ghost predicate Inv(s: State) {
    StopOk(s) && forall d: Delivery :: DeliveryOk(s, d)
  }

  lemma StepKeeps(s: State, x: Step)
    requires Inv(s) && Enabled(s, x)
    ensures Inv(Next(s, x))
  {
    StopKeeps(s, x);
    forall d: Delivery ensures DeliveryOk(Next(s, x), d) { DeliveryKeeps(s, x, d); }
  }

  lemma StopKeeps(s: State, x: Step)
    requires StopOk(s) && Enabled(s, x)
    ensures StopOk(Next(s, x))
  {
    LockKeeps(s, x);
    MarkKeeps(s, x);
    WorkersKeep(s, x);
  }

  predicate ByCall(x: Step) {
    x.Arrive? || x.Lock? || x.Check? || x.Submit? || x.Unlock?
  }

  predicate ByWorker(x: Step) {
    x.Take? || x.Process? || x.SeeStop? || x.Exit?
  }

  lemma LockKeeps(s: State, x: Step)
    requires LockOk(s) && Enabled(s, x)
    ensures LockOk(Next(s, x))
  {
    if ByCall(x) { CallLock(s, x); } else { OtherLock(s, x); }
  }

  lemma CallLock(s: State, x: Step)
    requires LockOk(s) && Enabled(s, x) && ByCall(x)
    ensures LockOk(Next(s, x))
  {}

  lemma OtherLock(s: State, x: Step)
    requires LockOk(s) && Enabled(s, x) && !ByCall(x)
    ensures LockOk(Next(s, x))
  {}

  lemma MarkKeeps(s: State, x: Step)
    requires LockOk(s) && MarkOk(s) && Enabled(s, x)
    ensures MarkOk(Next(s, x))
  {}

  lemma WorkersKeep(s: State, x: Step)
    requires MarkOk(s) && WorkersOk(s) && Enabled(s, x)
    ensures WorkersOk(Next(s, x))
  {}

  lemma DeliveryKeeps(s: State, x: Step, d: Delivery)
    requires Inv(s) && Enabled(s, x)
    ensures DeliveryOk(Next(s, x), d)
  {
    assert DeliveryOk(s, d);
    match x {
      case Take(w) => TakeKeeps(s, w, d);
      case Process(w) => ProcessKeeps(s, w, d);
      case Submit(_) => if |s.work| < s.size { SubmitKeeps(s, x, d); } else { OtherKeeps(s, x, d); }
      case _ => OtherKeeps(s, x, d);
    }
  }

  lemma SubmitKeeps(s: State, x: Step, d: Delivery)
    requires DeliveryOk(s, d) && x.Submit? && Enabled(s, x) && |s.work| < s.size
    ensures DeliveryOk(Next(s, x), d)
  {
    var t := Next(s, x);
    assert forall w :: Busy(t, w, d) <==> Busy(s, w, d);
    assert WasAccepted(t, d) <==> WasAccepted(s, d) || d == x.d;
    SnocCount(s.work, x.d, d);
  }

  lemma SnocCount(work: seq<Delivery>, last: Delivery, d: Delivery)
    ensures multiset(work + [last])[d] == multiset(work)[d] + if d == last then 1 else 0
  {}

  lemma OtherKeeps(s: State, x: Step, d: Delivery)
    requires DeliveryOk(s, d) && (x.Submit? ==> |s.work| >= s.size) && !x.Take? && !x.Process? && Enabled(s, x)
    ensures DeliveryOk(Next(s, x), d)
  {
    var t := Next(s, x);
    OtherFrame(s, x, d);
    assert t.work == s.work && t.taker == s.taker && t.processed == s.processed;
  }

  lemma OtherFrame(s: State, x: Step, d: Delivery)
    requires (x.Submit? ==> |s.work| >= s.size) && !x.Take? && !x.Process? && Enabled(s, x)
    ensures forall w :: Busy(Next(s, x), w, d) <==> Busy(s, w, d)
    ensures WasAccepted(Next(s, x), d) <==> WasAccepted(s, d)
  {}

  lemma TakeKeeps(s: State, w: WorkerId, d: Delivery)
    requires DeliveryOk(s, d) && Enabled(s, Take(w))
    ensures DeliveryOk(Next(s, Take(w)), d)
  {
    var t := Next(s, Take(w));
    assert s.work == [s.work[0]] + t.work;
    assert forall v :: Busy(t, v, d) <==> (if v == w then s.work[0] == d else Busy(s, v, d));
    assert !Busy(s, w, d);
  }

  lemma ProcessKeeps(s: State, w: WorkerId, d: Delivery)
    requires DeliveryOk(s, d) && Enabled(s, Process(w))
    ensures DeliveryOk(Next(s, Process(w)), d)
  {
    var t := Next(s, Process(w));
    assert forall v :: Busy(t, v, d) <==> v != w && Busy(s, v, d);
    assert Busy(s, w, d) <==> s.workers[w].d == d;
  }

  predicate StepTo(s: State, x: Step, t: State) {
    Enabled(s, x) && Next(s, x) == t
  }

  ghost predicate Runs(s: State, steps: seq<Step>, t: State) {
    Leads(StepTo, s, steps, t)
  }

  ghost predicate Reachable(s: State) {
    exists size, ids, steps :: ids != {} && Runs(Initial(size, ids), steps, s)
  }

  lemma InitialInv(size: nat, ids: set<WorkerId>)
    ensures Inv(Initial(size, ids)) && Initial(size, ids).workers.Keys == ids
  {}

  lemma ReachableInv(s: State)
    requires Reachable(s)
    ensures Inv(s) && s.workers != map[]
  {
    var size, ids, steps :| ids != {} && Runs(Initial(size, ids), steps, s);
    InitialInv(size, ids);
    var inv := (u: State) => Inv(u) && u.workers.Keys == ids;
    forall u, x, v | inv(u) && StepTo(u, x, v) ensures inv(v) { StepKeeps(u, x); }
    Keeps(StepTo, inv, Initial(size, ids), steps, s);
  }

  lemma ReachedOneMore(s: State, x: Step)
    requires Reachable(s) && Enabled(s, x)
    ensures Reachable(Next(s, x))
  {
    var size, ids, steps :| ids != {} && Runs(Initial(size, ids), steps, s);
    Snoc(StepTo, Initial(size, ids), steps, s, x, Next(s, x));
    assert Runs(Initial(size, ids), steps + [x], Next(s, x));
  }

  /** Nothing is processed that was not accepted, nothing is processed twice, and when the winning
      Stop gets past its wait, every accepted delivery has been processed. */
  lemma DrainedOnce(s: State)
    requires Reachable(s)
    ensures forall d: Delivery :: s.processed[d] <= if WasAccepted(s, d) then 1 else 0
    ensures s.stopper.Over? ==> s.work == [] && forall d: Delivery :: s.processed[d] == if WasAccepted(s, d) then 1 else 0
  {
    ReachableInv(s);
    forall d: Delivery
      ensures s.processed[d] <= (if WasAccepted(s, d) then 1 else 0)
      ensures s.stopper.Over? ==> s.processed[d] == if WasAccepted(s, d) then 1 else 0
    {
      assert DeliveryOk(s, d);
      if s.stopper.Over? { var w :| w in s.workers; }
    }
  }

  function FateOf(s: State, d: Delivery): set<Fate> {
    if d in s.calls && (s.calls[d].Leaving? || s.calls[d].Done?) then {s.calls[d].fate} else {}
  }

  /** A delivery gets its fate once: it is ignored exactly if the cluster is stopping, and otherwise accepted,
      as the last in the queue, exactly if there is room. */
  lemma FateGiven(s: State, x: Step, d: Delivery)
    requires Reachable(s) && Enabled(s, x) && FateOf(Next(s, x), d) != FateOf(s, d)
    ensures FateOf(s, d) == {} && (x == Check(d) || x == Submit(d))
    ensures var t := Next(s, x);
      && FateOf(t, d) == {if s.stopping then Ignored else if |s.work| < s.size then Accepted else Overloaded}
      && t.work == if FateOf(t, d) == {Accepted} then s.work + [d] else s.work
  {
    ReachableInv(s);
    FateStep(s, x, d);
  }

  lemma FateStep(s: State, x: Step, d: Delivery)
    requires MarkOk(s) && Enabled(s, x)
    ensures FateOf(Next(s, x), d) == FateOf(s, d) || (FateOf(s, d) == {} && (x == Check(d) || x == Submit(d)))
    ensures x == Check(d) ==> Next(s, x).work == s.work && FateOf(Next(s, x), d) == if s.stopping then {Ignored} else {}
    ensures x == Submit(d) ==> !s.stopping && FateOf(Next(s, x), d) == {if |s.work| < s.size then Accepted else Overloaded}
                               && Next(s, x).work == if |s.work| < s.size then s.work + [d] else s.work
  {}

  /** What was ignored was so because of Stop. */
  lemma IgnoredByStop(s: State, d: Delivery)
    requires Reachable(s) && FateOf(s, d) == {Ignored}
    ensures s.stopping
  {
    var size, ids, steps :| ids != {} && Runs(Initial(size, ids), steps, s);
    InitialInv(size, ids);
    var inv := (u: State) => Inv(u) && (FateOf(u, d) == {Ignored} ==> u.stopping);
    forall u, x, v | inv(u) && StepTo(u, x, v) ensures inv(v) {
      StepKeeps(u, x);
      FateStep(u, x, d);
      if u.stopping { StillStopping(u, x); }
    }
    Keeps(StepTo, inv, Initial(size, ids), steps, s);
  }

  lemma StillStopping(s: State, x: Step)
    requires s.stopping && Enabled(s, x)
    ensures Next(s, x).stopping
  {}

  /** From the moment Stop has set its mark nothing more is accepted; once it has returned nothing
      more is processed either. */
  lemma ClosedForGood(s: State, steps: seq<Step>, t: State)
    requires Inv(s) && s.stopping && Runs(s, steps, t)
    ensures t.stopping && forall d: Delivery :: WasAccepted(t, d) <==> WasAccepted(s, d)
    ensures s.stopper.Over? ==> t.processed == s.processed && t.stopper.Over?
  {
    var inv := (u: State) => Inv(u) && Closed(s, u);
    forall u, x, v | inv(u) && StepTo(u, x, v) ensures inv(v) {
      StepKeeps(u, x);
      ClosedStep(s, u, x);
    }
    Keeps(StepTo, inv, s, steps, t);
  }

  /** u is still as closed as s. */
  ghost predicate Closed(s: State, u: State) {
    u.stopping && (forall d: Delivery :: WasAccepted(u, d) <==> WasAccepted(s, d))
    && (s.stopper.Over? ==> u.processed == s.processed && u.stopper.Over?)
  }

  lemma ClosedStep(s: State, u: State, x: Step)
    requires Inv(u) && Closed(s, u) && Enabled(u, x)
    ensures Closed(s, Next(u, x))
  {
    forall d: Delivery ensures WasAccepted(Next(u, x), d) <==> WasAccepted(u, d) { SameFate(u, x, d); }
  }

  lemma SameFate(u: State, x: Step, d: Delivery)
    requires MarkOk(u) && u.stopping && Enabled(u, x)
    ensures WasAccepted(Next(u, x), d) <==> WasAccepted(u, d)
  {}

  // ----- the progress of Stop

  function StopWeight(p: Stopper): nat {
    match p case Before => 5 case Entering => 4 case Marking => 3 case Closing => 2 case WaitWorkers => 1 case Over => 0
  }

  function CallWeight(e: Enqueue): nat {
    match e case Locking => 6 case Checking => 5 case Submitting => 4 case Leaving(_) => 1 case Done(_) => 0
  }

  function WorkerWeight(w: Worker): nat {
    match w case Working(_) => 3 case Selecting => 2 case DrainWorking(_) => 2 case Draining => 1 case Exited => 0
  }

  /** How much is left that Stop may have to wait for: its own stages, the deliveries queued, the stages
      of the workers and, until it has set its mark, those of the calls that are already there. */
  ghost function Pending(s: State): nat {
    StopWeight(s.stopper) + 2 * |s.work| + Sum(s.workers, WorkerWeight) + if s.stopping then 0 else Sum(s.calls, CallWeight)
  }

  /** No step adds to it but a new call, and from the mark on not even that. */
  lemma NeverMore(s: State, x: Step)
    requires StopOk(s) && Enabled(s, x) && (x.Arrive? ==> s.stopping)
    ensures Pending(Next(s, x)) <= Pending(s)
    ensures !x.Arrive? && (s.stopping ==> !x.Lock? && !x.Check? && !x.Unlock?) ==> Pending(Next(s, x)) < Pending(s)
  {
    if ByCall(x) { CallPending(s, x); } else if ByWorker(x) { WorkerPending(s, x); }
  }

  lemma CallPending(s: State, x: Step)
    requires MarkOk(s) && Enabled(s, x) && ByCall(x) && (x.Arrive? ==> s.stopping)
    ensures var t := Next(s, x);
      if s.stopping then Pending(t) == Pending(s) && !x.Submit? else Pending(t) < Pending(s)
  {
    Update(s.calls, CallWeight, x.d, Next(s, x).calls[x.d]);
  }

  lemma WorkerPending(s: State, x: Step)
    requires Enabled(s, x) && ByWorker(x)
    ensures Pending(Next(s, x)) < Pending(s)
  {
    Update(s.workers, WorkerWeight, x.w, Next(s, x).workers[x.w]);
  }

  /** A Stop on its way always gets on: some call or worker that is already there, or Stop itself, can
      take a step after which less is left; and nobody undoes that. */
  lemma StopAdvances(s: State)
    requires Reachable(s) && !s.stopper.Before? && !s.stopper.Over?
    ensures exists x :: Enabled(s, x) && !x.Arrive? && Pending(Next(s, x)) < Pending(s)
    ensures forall x | Enabled(s, x) && (x.Arrive? ==> s.stopping) :: Pending(Next(s, x)) <= Pending(s)
  {
    ReachableInv(s);
    forall x | Enabled(s, x) && (x.Arrive? ==> s.stopping) ensures Pending(Next(s, x)) <= Pending(s) {
      NeverMore(s, x);
    }
    AdvancingEnabled(s);
    NeverMore(s, Advancing(s));
  }

  /** The step that Stop waits for. */
  ghost function Advancing(s: State): Step
    requires StopOk(s) && !s.stopper.Before? && !s.stopper.Over?
  {
    match s.stopper
    case Entering =>
      if s.mu.HeldBy? then
        var d := s.mu.d;
        if s.calls[d].Checking? then Check(d) else if s.calls[d].Submitting? then Submit(d) else Unlock(d)
      else StopLock
    case Marking => StopMark
    case Closing => StopClose
    case WaitWorkers =>
      if exists w :: w in s.workers && !s.workers[w].Exited? then
        var w :| w in s.workers && !s.workers[w].Exited?;
        match s.workers[w]
        case Selecting => SeeStop(w)
        case Draining => if s.work == [] then Exit(w) else Take(w)
        case _ => Process(w)
      else WorkersWaited
    case _ => StopBegin
  }

  lemma AdvancingEnabled(s: State)
    requires StopOk(s) && !s.stopper.Before? && !s.stopper.Over?
    ensures var x := Advancing(s);
      Enabled(s, x) && !x.Arrive? && (s.stopping ==> !x.Lock? && !x.Check? && !x.Unlock?)
  {}
}
