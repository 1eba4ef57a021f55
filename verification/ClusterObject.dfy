/** net/cluster/rabbitmq_cluster/cluster.go, incoming work as an object: a bounded channel, two flags and
    a counting wait group. A method is a stretch of one goroutine that nobody interrupts, and a run of
    ClusterDrain's steps. */
module Clusters {
  import opened ClusterDrain
  import opened Wrappers

  function Running(workers: map<WorkerId, Worker>): set<WorkerId> {
    set w | w in workers && !workers[w].Exited?
  }

  function Room(s: State): Fate { if |s.work| < s.size then Accepted else Overloaded }

  /** The takers after w has taken these deliveries. */
  ghost function TakenBy(takers: map<Delivery, WorkerId>, ds: seq<Delivery>, w: WorkerId): map<Delivery, WorkerId>
    decreases |ds|
  {
    if ds == [] then takers else TakenBy(takers[ds[0] := w], ds[1..], w)
  }

  class Cluster {
    const queueSize: nat
    var work: seq<Delivery>
    var stopping: bool
    var stop: bool        // the channel stop is closed
    var workerWG: int
    ghost var s: State

    ghost predicate Valid()
      reads this
    {
      Reachable(s) && s.size == queueSize && s.work == work && s.stopping == stopping && s.stop == stop &&
      workerWG == |Running(s.workers)|
    }

    /** Init, up to the start of the workers. */
    constructor (queueSize: nat, ids: set<WorkerId>)
      requires ids != {}
      ensures Valid() && s == Initial(queueSize, ids)
    {
      this.queueSize := queueSize;
      work, stopping, stop, workerWG := [], false, false, |ids|;
      s := Initial(queueSize, ids);
      new;
      assert Runs(Initial(queueSize, ids), [], s);
      assert Running(s.workers) == ids;
    }

    ghost method Do(x: Step, t: State)
      requires Reachable(s) && StepTo(s, x, t)
      modifies this`s
      ensures Reachable(s) && s == t
    {
      ReachedOneMore(s, x);
      s := t;
    }

    ghost method LockFor(d: Delivery)
      requires Reachable(s) && d !in s.calls && s.mu.Free?
      modifies this`s
      ensures Reachable(s) && s == old(s).(mu := HeldBy(d), calls := old(s).calls[d := Checking])
    {
      Do(Arrive(d), s.(calls := s.calls[d := Locking]));
      Do(Lock(d), s.(mu := HeldBy(d), calls := s.calls[d := Checking]));
    }

    ghost method Leave(d: Delivery)
      requires Reachable(s) && Is(s, d, Checking)
      modifies this`s
      ensures Reachable(s) && d in s.calls && s.calls[d].Done?
      ensures s == old(s).(mu := Free, work := s.work, calls := old(s).calls[d := s.calls[d]])
      ensures s.calls[d].fate == if s.stopping then Ignored else if |old(s).work| < s.size then Accepted else Overloaded
      ensures s.work == if s.calls[d].fate.Accepted? then old(s).work + [d] else old(s).work
    {
      if s.stopping {
        Do(Check(d), s.(calls := s.calls[d := Leaving(Ignored)]));
        Do(Unlock(d), s.(mu := Free, calls := s.calls[d := ClusterDrain.Done(Ignored)]));
      } else {
        Do(Check(d), s.(calls := s.calls[d := Submitting]));
        Admit(d);
      }
    }

    ghost method Admit(d: Delivery)
      requires Reachable(s) && Is(s, d, Submitting)
      modifies this`s
      ensures Reachable(s)
      ensures s == old(s).(mu := Free, work := s.work, calls := old(s).calls[d := ClusterDrain.Done(Room(old(s)))])
      ensures s.work == if Room(old(s)).Accepted? then old(s).work + [d] else old(s).work
    {
      var fate := Room(s);
      Do(Submit(d), s.(work := if fate.Accepted? then s.work + [d] else s.work, calls := s.calls[d := Leaving(fate)]));
      Do(Unlock(d), s.(mu := Free, calls := s.calls[d := ClusterDrain.Done(fate)]));
      Overwrite(old(s).calls, d, Leaving(fate), ClusterDrain.Done(fate));
    }

    method Enqueue(message: Delivery) returns (fate: Fate)
      requires Valid() && message !in s.calls && s.mu.Free?
      modifies this`work, this`s
      ensures Valid() && (WasAccepted(s, message) <==> fate.Accepted?)
      ensures fate == if stopping then Ignored else if |old(work)| < queueSize then Accepted else Overloaded
      ensures s == old(s).(work := if fate.Accepted? then old(s).work + [message] else old(s).work,
                           calls := old(s).calls[message := ClusterDrain.Done(fate)])
    {
      LockFor(message);
      fate := Ignored;
      if !stopping {
        fate := Overloaded;
        if |work| < queueSize {
          work := work + [message];
          fate := Accepted;
        }
      }
      Leave(message);
      Overwrite(old(s).calls, message, Checking, ClusterDrain.Done(fate));
    }

    ghost method TakeAndProcess(w: WorkerId)
      requires Reachable(s) && w in s.workers && (s.workers[w].Selecting? || s.workers[w].Draining?) && s.work != []
      modifies this`s
      ensures Reachable(s) && s == old(s).(work := old(s).work[1..], taker := old(s).taker[old(s).work[0] := w],
                                              processed := old(s).processed + multiset{old(s).work[0]})
    {
      var d, was := s.work[0], s.workers[w];
      Do(Take(w), s.(work := s.work[1..], taker := s.taker[d := w],
                     workers := s.workers[w := if was.Selecting? then Working(d) else DrainWorking(d)]));
      Do(Process(w), s.(processed := s.processed + multiset{d}, workers := s.workers[w := was]));
      assert s.workers == old(s).workers;
    }

    /** A worker that finds a delivery. */
    method WorkerTurn(ghost w: WorkerId) returns (message: Delivery)
      requires Valid() && w in s.workers && (s.workers[w].Selecting? || s.workers[w].Draining?) && work != []
      modifies this`work, this`s
      ensures Valid() && message == old(work)[0] && work == old(work)[1..]
      ensures s == old(s).(work := work, taker := old(s).taker[message := w], processed := old(s).processed + multiset{message})
    {
      message := work[0];
      work := work[1..];
      TakeAndProcess(w);
    }

    /** A worker that finds stop closed: it processes all that is queued, and exits. */
    method WorkerDrain(ghost w: WorkerId)
      requires Valid() && w in s.workers && s.workers[w].Selecting? && stop
      modifies this`work, this`workerWG, this`s
      ensures Valid() && workerWG == old(workerWG) - 1
      ensures s == old(s).(work := [], taker := TakenBy(old(s).taker, old(s).work, w),
                           processed := old(s).processed + multiset(old(s).work), workers := old(s).workers[w := Exited])
    {
      BeginDrain(w);
      DrainAll(w);
      Overwrite(old(s).workers, w, Draining, Exited);
      EndDrain(w);
      workerWG := workerWG - 1;
    }

    ghost method BeginDrain(w: WorkerId)
      requires Reachable(s) && w in s.workers && s.workers[w].Selecting? && s.stop
      modifies this`s
      ensures Reachable(s) && s == old(s).(workers := old(s).workers[w := Draining]) && Running(s.workers) == Running(old(s).workers)
    {
      Do(SeeStop(w), s.(workers := s.workers[w := Draining]));
    }

    method DrainAll(ghost w: WorkerId)
      requires Valid() && w in s.workers && s.workers[w].Draining?
      modifies this`work, this`s
      ensures Valid()
      ensures s == old(s).(work := [], taker := TakenBy(old(s).taker, old(s).work, w),
                           processed := old(s).processed + multiset(old(s).work))
    {
      while work != []
        invariant Valid() && s == old(s).(work := work, taker := s.taker, processed := s.processed)
        invariant TakenBy(s.taker, work, w) == TakenBy(old(s).taker, old(s).work, w)
        invariant s.processed + multiset(work) == old(s).processed + multiset(old(s).work)
        decreases |work|
      {
        assert work == [work[0]] + work[1..];
        var _ := WorkerTurn(w);
      }
    }

    ghost method EndDrain(w: WorkerId)
      requires Reachable(s) && w in s.workers && s.workers[w].Draining? && s.work == []
      modifies this`s
      ensures Reachable(s) && s == old(s).(workers := old(s).workers[w := Exited]) && |Running(s.workers)| == |Running(old(s).workers)| - 1
    {
      Do(ClusterDrain.Exit(w), s.(workers := s.workers[w := Exited]));
      assert Running(old(s).workers) == Running(s.workers) + {w} && w !in Running(s.workers);
    }

    /** Stop up to its wait. */
    method BeginStop()
      requires Valid() && s.mu.Free? && s.stopper.Before?
      modifies this`stopping, this`stop, this`s
      ensures Valid() && stopping && stop && s == old(s).(stopping := true, stop := true, stopper := WaitWorkers)
    {
      Mark();
      stopping := true;
      Do(StopClose, s.(stop := true, stopper := WaitWorkers));
      stop := true;
    }

    ghost method Mark()
      requires Reachable(s) && s.mu.Free? && s.stopper.Before?
      modifies this`s
      ensures Reachable(s) && s == old(s).(stopping := true, stopper := Closing)
    {
      Do(StopBegin, s.(stopper := Entering));
      Do(StopLock, s.(mu := HeldByStop, stopper := Marking));
      Do(StopMark, s.(mu := Free, stopping := true, stopper := Closing));
    }

    /** The wait, when the wait group is at zero: every accepted delivery has been processed once. */
    method WaitForWorkers()
      requires Valid() && s.stopper.WaitWorkers? && workerWG == 0
      modifies this`s
      ensures Valid() && s == old(s).(stopper := Over) && work == []
      ensures forall d: Delivery :: s.processed[d] == if WasAccepted(s, d) then 1 else 0
    {
      assert Running(s.workers) == {};
      forall w | w in s.workers ensures s.workers[w].Exited? {
        assert w !in Running(s.workers);
      }
      Do(WorkersWaited, s.(stopper := Over));
      DrainedOnce(s);
    }
  }

  /** With room for one: a delivery is processed, one comes while the queue is full, one is still queued
      when the cluster stops, and one comes too late. */
  method Lifecycle(a: Delivery, b: Delivery, c: Delivery, d: Delivery, w: WorkerId)
    requires a != b && a != c && a != d && b != c && b != d && c != d
  {
    var cluster := new Cluster(1, {w});
    assert cluster.s.workers == map[w := Selecting] && cluster.s.calls == map[];
    FillAndTake(cluster, a, b, w);
    var fate := cluster.Enqueue(c);
    assert fate.Accepted?;
    StopWithOne(cluster, d, w);
    assert cluster.work == [] && cluster.s.processed == multiset{a, c};
  }

  /** Two deliveries for one place. */
  method FillAndTake(cluster: Cluster, a: Delivery, b: Delivery, w: WorkerId)
    requires cluster.Valid() && cluster.queueSize == 1 && cluster.work == [] && !cluster.stopping && cluster.s.mu.Free?
    requires a != b && a !in cluster.s.calls && b !in cluster.s.calls && w in cluster.s.workers && cluster.s.workers[w].Selecting?
    modifies cluster
    ensures cluster.Valid() && cluster.s == old(cluster.s).(
      calls := old(cluster.s).calls[a := ClusterDrain.Done(Accepted)][b := ClusterDrain.Done(Overloaded)],
      taker := old(cluster.s).taker[a := w], processed := old(cluster.s).processed + multiset{a})
  {
    var fate := cluster.Enqueue(a);
    fate := cluster.Enqueue(b);
    assert fate.Overloaded?;
    var message := cluster.WorkerTurn(w);
    assert message == a;
  }

  /** A stop with one delivery queued and one worker, and a delivery that comes too late. */
  method StopWithOne(cluster: Cluster, late: Delivery, w: WorkerId)
    requires cluster.Valid() && cluster.s.stopper.Before? && cluster.s.mu.Free? && late !in cluster.s.calls
    requires |cluster.work| == 1 && cluster.s.workers == map[w := Selecting]
    modifies cluster
    ensures cluster.Valid() && cluster.work == [] && cluster.s.stopper.Over?
    ensures cluster.s.processed == old(cluster.s.processed) + multiset(old(cluster.work))
  {
    cluster.BeginStop();
    var fate := cluster.Enqueue(late);
    assert fate.Ignored?;
    OneRunning(w);
    cluster.WorkerDrain(w);
    cluster.WaitForWorkers();
  }

  lemma OneRunning(w: WorkerId)
    ensures Running(map[w := Selecting]) == {w}
  {}
}
