/** extend/time_wheel/time_wheel.go, bucket.go and timer.go as objects: wheels linked
    by overflow pointers over one shared priority queue, proved equal to the
    functions of WheelSpec and TimerRuns. */
module TimeWheels {
  import opened Wrappers
  import opened Ticks
  import opened PriorityQueues
  import opened WheelSpec
  import opened TimerRuns

  class TimeWheel {
    const tick: int
    const wheelSize: nat
    const interval: int
    const level: nat
    const queue: PriorityQueue
    var currentTime: int
    var buckets: seq<Bucket>
    var overflowWheel: TimeWheel?
    ghost var Repr: set<TimeWheel>

    ghost predicate Valid()
      reads this, Repr
    {
      && this in Repr && interval == tick * wheelSize
      && (overflowWheel != null ==>
            && overflowWheel in Repr && overflowWheel.Repr <= Repr && this !in overflowWheel.Repr
            && overflowWheel.queue == queue && overflowWheel.level == level + 1 && overflowWheel.Valid())
    }

    /** This wheel and the overflow wheels above it. */
    ghost function Model(): (ws: seq<Wheel>)
      requires Valid()
      reads this, Repr
      ensures |ws| > 0 && ws[0] == Wheel(tick, wheelSize, currentTime, buckets)
      decreases Repr
    {
      [Wheel(tick, wheelSize, currentTime, buckets)] + if overflowWheel == null then [] else overflowWheel.Model()
    }

    constructor (tick: int, wheelSize: nat, start: int, queue: PriorityQueue, level: nat)
      ensures Valid() && Repr == {this} && this.queue == queue && this.level == level
      ensures Model() == [NewWheel(tick, wheelSize, start)]
    {
      this.tick, this.wheelSize, this.interval := tick, wheelSize, tick * wheelSize;
      this.currentTime := Truncate(start, tick);
      this.buckets := seq(wheelSize, _ => EMPTY);
      this.queue, this.level := queue, level;
      this.overflowWheel := null;
      this.Repr := {this};
    }

    /** `add`: None means already expired. */
    method Add(id: nat, expiration: int) returns (ref: Option<Ref>)
      requires Valid() && Tower(Model()) && queue.Valid() && queue.Repr() !! Repr
      modifies Repr, queue.Repr()
      ensures Valid() && fresh(Repr - old(Repr))
      ensures queue.Valid() && queue.Repr() !! Repr && fresh(queue.Repr() - old(queue.Repr()))
      ensures var i := Insert(old(Model()), level, id, expiration);
        Model() == i.ws && ref == i.ref && queue.Contents() == old(queue.Contents()) + i.offers
      decreases expiration - tick, 2
    {
      if expiration < currentTime + tick {
        return None;
      }
      if expiration < currentTime + interval {
        var here := AddToBucket(id, expiration);
        ref := Some(here);
      } else {
        IntervalGrows(Model()[0]);
        ref := AddAbove(id, expiration);
      }
    }

    /** The branch of `add` for a timer beyond this wheel's turn. */
    method AddAbove(id: nat, expiration: int) returns (ref: Option<Ref>)
      requires Valid() && Tower(Model()) && queue.Valid() && queue.Repr() !! Repr
      requires expiration >= currentTime + interval && tick < interval
      modifies Repr, queue.Repr()
      ensures Valid() && fresh(Repr - old(Repr))
      ensures queue.Valid() && queue.Repr() !! Repr && fresh(queue.Repr() - old(queue.Repr()))
      ensures var i := Insert(Above(old(Model())), level + 1, id, expiration);
        Model() == [old(Model()[0])] + i.ws && ref == i.ref && queue.Contents() == old(queue.Contents()) + i.offers
      decreases expiration - tick, 1
    {
      CreateOverflow();
      ref := PassOn(id, expiration);
    }

    /** The overflow wheel's turn to add. */
    method PassOn(id: nat, expiration: int) returns (ref: Option<Ref>)
      requires Valid() && overflowWheel != null && Tower(overflowWheel.Model()) && queue.Valid() && queue.Repr() !! Repr
      requires tick < overflowWheel.tick && expiration >= tick
      modifies Repr, queue.Repr()
      ensures Valid() && fresh(Repr - old(Repr))
      ensures queue.Valid() && queue.Repr() !! Repr && fresh(queue.Repr() - old(queue.Repr()))
      ensures var i := Insert(old(overflowWheel.Model()), level + 1, id, expiration);
        Model() == [old(Model()[0])] + i.ws && ref == i.ref && queue.Contents() == old(queue.Contents()) + i.offers
      decreases expiration - tick, 0
    {
      ref := overflowWheel.Add(id, expiration);
      Repr := Repr + overflowWheel.Repr;
    }

    /** The branch of `add` for a timer inside this wheel's turn. */
    method AddToBucket(id: nat, expiration: int) returns (ref: Ref)
      requires Valid() && Tower(Model()) && queue.Valid() && queue.Repr() !! Repr
      requires currentTime + tick <= expiration < currentTime + interval
      modifies this`buckets, queue.Repr()
      ensures Valid() && queue.Valid() && queue.Repr() !! Repr && fresh(queue.Repr() - old(queue.Repr()))
      ensures var i := Insert(old(Model()), level, id, expiration);
        Model() == i.ws && Some(ref) == i.ref && queue.Contents() == old(queue.Contents()) + i.offers
    {
      var vid := expiration / tick;
      var slot := vid % wheelSize;
      var b := buckets[slot];
      ref := Ref(level, slot);
      if b.expiration != vid * tick {
        var _ := queue.Offer(ref, vid * tick);
      }
      assert Model()[1..] == old(Model()[1..]);
      buckets := buckets[slot := Bucket(vid * tick, b.timers + [id])];
    }

    /** The overflow wheel, created on first use. */
    method CreateOverflow()
      requires Valid() && Tower(Model())
      modifies this`overflowWheel, this`Repr
      ensures Valid() && overflowWheel != null && overflowWheel.Model() == Above(old(Model()))
      ensures Repr >= old(Repr) && fresh(Repr - old(Repr))
    {
      assert Model()[1..] == if overflowWheel == null then [] else overflowWheel.Model();
      if overflowWheel == null {
        overflowWheel := new TimeWheel(interval, wheelSize, currentTime, queue, level + 1);
        Repr := Repr + overflowWheel.Repr;
      }
    }

    /** `advanceClock`. */
    method AdvanceClock(expiration: int)
      requires Valid() && Tower(Model())
      modifies Repr
      ensures Valid() && Repr == old(Repr) && Model() == Advance(old(Model()), expiration)
      decreases Repr
    {
      ghost var before := Model();
      if expiration >= currentTime + tick {
        currentTime := Truncate(expiration, tick);
        assert before[1..] == if overflowWheel == null then [] else overflowWheel.Model();
        if overflowWheel != null { overflowWheel.AdvanceClock(currentTime); }
      }
    }

    /** Follows a bucket reference. */
    method Find(r: Ref) returns (b: Bucket)
      requires Valid() && ValidRef(Model(), level, r)
      ensures b == Model()[r.level - level].buckets[r.slot]
      decreases Repr
    {
      if r.level == level {
        b := buckets[r.slot];
      } else {
        ModelAbove(r.level - level);
        b := overflowWheel.Find(r);
      }
    }

    lemma ModelAbove(k: nat)
      requires Valid() && 0 < k < |Model()|
      ensures overflowWheel != null && |Model()| == |overflowWheel.Model()| + 1
      ensures Model()[k] == overflowWheel.Model()[k - 1]
    {}

    method Put(r: Ref, b: Bucket)
      requires Valid() && ValidRef(Model(), level, r)
      modifies Repr
      ensures Valid() && Repr == old(Repr)
      ensures var k, ws := r.level - level, old(Model());
        Model() == ws[k := ws[k].(buckets := ws[k].buckets[r.slot := b])]
      decreases Repr
    {
      if r.level == level {
        buckets := buckets[r.slot := b];
      } else {
        ModelAbove(r.level - level);
        overflowWheel.Put(r, b);
      }
    }
  }

  /** The root wheel with its queue, the Timer objects and, as a ghost, the calls
      of their callbacks. */
  class TimerService {
    const wheel: TimeWheel
    var timers: map<nat, Rec>
    ghost var begun: multiset<Firing>
    ghost var ran: seq<Firing>

    ghost predicate Linked()
      reads wheel, wheel.Repr, wheel.queue, wheel.queue.pq, wheel.queue.owned
    {
      && wheel.Valid() && wheel.level == 0 && Tower(wheel.Model())
      && wheel.queue.Valid() && wheel.queue.Repr() !! wheel.Repr
    }

    ghost function View(): World
      requires wheel.Valid()
      reads this, wheel, wheel.Repr, wheel.queue
    {
      World(wheel.Model(), wheel.queue.Contents(), timers, begun, ran)
    }

    ghost predicate Valid()
      reads this, wheel, wheel.Repr, wheel.queue, wheel.queue.pq, wheel.queue.owned
    {
      Linked() && Inv(View(), {}, multiset{}) && Balanced(View())
    }

    ghost function Repr(): set<object>
      reads this, wheel, wheel.queue
    {
      {this} + wheel.Repr + wheel.queue.Repr()
    }

    /** The footprint grew by new objects only. */
    twostate predicate Grown()
      reads this, wheel, wheel.queue
    {
      forall o: object :: o in Repr() && o !in old(Repr()) ==> !old(allocated(o))
    }

    /** NewTimeWheel, for the ticks it accepts. */
    constructor (tick: int, wheelSize: nat, startMs: int)
      requires tick >= 1 && wheelSize >= 2 && startMs >= 0
      ensures Valid() && fresh(Repr()) && View() == Initial(tick, wheelSize, startMs).w
    {
      var queue := new PriorityQueue(wheelSize);
      wheel := new TimeWheel(tick, wheelSize, startMs, queue, 0);
      timers := map[];
      begun, ran := multiset{}, [];
      InitialGood(tick, wheelSize, startMs);
    }

    /** `addOrRun` with the task it runs. */
    method AddOrRun(id: nat)
      requires Linked() && id in timers
      modifies Repr()
      ensures Linked() && Grown()
      ensures View() == TimerRuns.AddOrRun(old(View()), id)
      decreases wheel.Model()[0].currentTime + wheel.Model()[0].tick - timers[id].expiration, 2
    {
      InsertTower(wheel.Model(), 0, id, timers[id].expiration);
      var placed := Enqueue(id);
      if !placed { Overdue(id); }
    }

    /** The task of an expired timer runs at once. */
    method Overdue(id: nat)
      requires Linked() && id in timers
      requires timers[id].expiration < wheel.Model()[0].currentTime + wheel.Model()[0].tick
      modifies Repr()
      ensures Linked() && Grown()
      ensures var v, f := TimerRuns.Begin(old(View()), id), Firing(id, old(timers)[id].expiration);
        View() == Called(if old(timers)[id].period == 0 then v else TimerRuns.AddOrRun(v, id), f)
      decreases wheel.Model()[0].currentTime + wheel.Model()[0].tick - timers[id].expiration, 1
    {
      ghost var f := Firing(id, timers[id].expiration);
      if timers[id].period == 0 { Begin(id); } else { CatchUp(id); }
      Call(f);
    }

    /** The task of an expired periodic timer adds it again before it calls back. */
    method CatchUp(id: nat)
      requires Linked() && id in timers && timers[id].period > 0
      requires timers[id].expiration < wheel.Model()[0].currentTime + wheel.Model()[0].tick
      modifies Repr()
      ensures Linked() && Grown()
      ensures View() == TimerRuns.AddOrRun(TimerRuns.Begin(old(View()), id), id)
      decreases wheel.Model()[0].currentTime + wheel.Model()[0].tick - timers[id].expiration, 0
    {
      Begin(id);
      AddOrRun(id);
    }

    /** The call of the callback, for the deadline that the task was entered for. */
    ghost method Call(f: Firing)
      requires Linked()
      modifies this`ran
      ensures Linked() && Repr() == old(Repr()) && View() == Called(old(View()), f)
    {
      ran := ran + [f];
    }

    /** `add` for a Timer object: the bucket it lands in sets its back pointer. */
    method Enqueue(id: nat) returns (placed: bool)
      requires Linked() && id in timers
      modifies Repr()
      ensures Linked() && Grown()
      ensures var i := Insert(old(View()).ws, 0, id, old(timers)[id].expiration);
        && placed == i.ref.Some?
        && View() == if placed then World(i.ws, old(View()).q + i.offers, old(timers)[id := old(timers)[id].(phase := InBucket(i.ref.value))], old(begun), old(ran))
                     else old(View())
    {
      var ref := Place(id, timers[id].expiration);
      placed := ref.Some?;
      if placed { Register(id, timers[id].(phase := InBucket(ref.value))); }
    }

    /** `add` as far as wheels and queue go. */
    method Place(id: nat, expiration: int) returns (ref: Option<Ref>)
      requires Linked()
      modifies wheel.Repr, wheel.queue.Repr()
      ensures Linked() && Grown()
      ensures var i := Insert(old(View()).ws, 0, id, expiration);
        ref == i.ref && View() == old(View()).(ws := i.ws, q := old(View()).q + i.offers)
      ensures ref.None? ==> View() == old(View())
    {
      InsertTower(wheel.Model(), 0, id, expiration);
      ref := wheel.Add(id, expiration);
    }

    /** The task is entered: a periodic timer gets its next deadline. */
    method Begin(id: nat)
      requires Linked() && id in timers
      modifies this`timers, this`begun
      ensures Linked() && Repr() == old(Repr()) && View() == TimerRuns.Begin(old(View()), id)
    {
      begun := begun + multiset{Firing(id, timers[id].expiration)};
      timers := timers[id := Entered(timers[id])];
    }

    /** AfterFunc; `id` stands for the new Timer object. */
    method AfterFunc(id: nat, expiration: int)
      requires Valid() && id !in timers
      modifies Repr()
      ensures Valid() && Grown()
      ensures View() == AddTimer(old(View()), id, expiration, 0)
    {
      AddTimerKeeps(View(), id, expiration, 0);
      AddTimerBalance(View(), id, expiration, 0);
      NewTimer(id, expiration, 0);
    }

    /** ScheduleFunc with an EverySchedule of `period` whole milliseconds. */
    method ScheduleFunc(id: nat, first: int, period: nat)
      requires Valid() && id !in timers && period >= 1
      modifies Repr()
      ensures Valid() && Grown()
      ensures View() == AddTimer(old(View()), id, first, period)
    {
      AddTimerKeeps(View(), id, first, period);
      AddTimerBalance(View(), id, first, period);
      NewTimer(id, first, period);
    }

    method NewTimer(id: nat, start: int, period: nat)
      requires Linked() && id !in timers
      modifies Repr()
      ensures Linked() && Grown()
      ensures View() == AddTimer(old(View()), id, start, period)
    {
      Register(id, Rec(start, period, start, Held));
      AddOrRun(id);
    }

    method Register(id: nat, rec: Rec)
      requires Linked()
      modifies this`timers
      ensures Linked() && Repr() == old(Repr()) && View() == old(View()).(recs := old(timers)[id := rec])
    {
      timers := timers[id := rec];
    }

    /** `bucket.remove`, clearing the timer's back pointer. */
    method TakeOut(r: Ref, id: nat, phase: Phase)
      requires Linked() && ValidRef(wheel.Model(), 0, r) && id in timers
      modifies wheel.Repr, this`timers
      ensures Linked() && Repr() == old(Repr()) && View() == TimerRuns.TakeOut(old(View()), r, id, phase)
    {
      Unlink(r, id);
      Register(id, timers[id].(phase := phase));
    }

    method Unlink(r: Ref, id: nat)
      requires Linked() && ValidRef(wheel.Model(), 0, r)
      modifies wheel.Repr
      ensures Linked() && Repr() == old(Repr())
      ensures var b := At(old(View()).ws, 0, r);
        View() == old(View()).(ws := SetBucket(old(View()).ws, r, b.(timers := Without(b.timers, id))))
    {
      var b := wheel.Find(r);
      Replace(r, b.(timers := Without(b.timers, id)));
    }

    method Replace(r: Ref, b: Bucket)
      requires Linked() && ValidRef(wheel.Model(), 0, r)
      modifies wheel.Repr
      ensures Linked() && Repr() == old(Repr()) && View() == old(View()).(ws := SetBucket(old(View()).ws, r, b))
    {
      SetBucketEffect(wheel.Model(), r, b);
      wheel.Put(r, b);
    }

    /** `Timer.Stop`. */
    method Stop(id: nat) returns (stopped: bool)
      requires Valid() && id in timers
      modifies wheel.Repr, this`timers
      ensures Valid() && Repr() == old(Repr())
      ensures (StopKeeps(old(View()), id); (View(), stopped) == TimerRuns.Stop(old(View()), id))
    {
      StopKeeps(View(), id);
      stopped := timers[id].phase.InBucket?;
      if stopped { TakeOut(timers[id].phase.ref, id, Stopped); }
    }

    /** `bucket.Flush` with reinsert = addOrRun. */
    method Flush(r: Ref)
      requires Linked() && ValidRef(wheel.Model(), 0, r)
      requires forall id | id in At(wheel.Model(), 0, r).timers :: id in timers
      modifies Repr()
      ensures Linked() && Grown()
      ensures View() == Flushed(old(View()), r)
    {
      Empty(r);
      SetExpired(r);
    }

    /** The loop of `bucket.Flush`. */
    method Empty(r: Ref)
      requires Linked() && ValidRef(wheel.Model(), 0, r)
      requires forall id | id in At(wheel.Model(), 0, r).timers :: id in timers
      modifies Repr()
      ensures Linked() && Grown() && ValidRef(wheel.Model(), 0, r)
      ensures View() == Emptied(old(View()), r)
    {
      var b := wheel.Find(r);
      ReinsertAll(r, b.timers);
    }

    method ReinsertAll(r: Ref, ts: seq<nat>)
      requires Linked() && ValidRef(wheel.Model(), 0, r) && forall id | id in ts :: id in timers
      modifies Repr()
      ensures Linked() && Grown() && ValidRef(wheel.Model(), 0, r)
      ensures View() == FlushLoop(old(View()), r, ts)
    {
      var i := 0;
      while i < |ts|
        invariant i <= |ts| && Linked() && ValidRef(wheel.Model(), 0, r) && forall id | id in ts :: id in timers
        invariant Grown()
        invariant FlushLoop(View(), r, ts[i..]) == FlushLoop(old(View()), r, ts)
      {
        ReinsertNext(r, ts, i);
        i := i + 1;
      }
    }

    method ReinsertNext(r: Ref, ts: seq<nat>, i: nat)
      requires Linked() && ValidRef(wheel.Model(), 0, r) && (forall id | id in ts :: id in timers) && i < |ts|
      modifies Repr()
      ensures Linked() && Grown() && ValidRef(wheel.Model(), 0, r) && forall id | id in ts :: id in timers
      ensures FlushLoop(View(), r, ts[i + 1..]) == FlushLoop(old(View()), r, ts[i..])
    {
      FlushUnfold(View(), r, ts, i);
      Reinsert(r, ts[i]);
    }

    method Reinsert(r: Ref, id: nat)
      requires Linked() && ValidRef(wheel.Model(), 0, r) && id in timers
      modifies Repr()
      ensures Linked() && Grown()
      ensures View() == TimerRuns.AddOrRun(TimerRuns.TakeOut(old(View()), r, id, Held), id)
    {
      TakeOut(r, id, Held);
      AddOrRun(id);
    }

    /** SetExpiration(-1). */
    method SetExpired(r: Ref)
      requires Linked() && ValidRef(wheel.Model(), 0, r)
      modifies wheel.Repr
      ensures Linked() && Repr() == old(Repr())
      ensures View() == old(View()).(ws := SetBucket(old(View()).ws, r, At(old(View()).ws, 0, r).(expiration := -1)))
    {
      var b := wheel.Find(r);
      Replace(r, b.(expiration := -1));
    }

    /** The bucket loop's turn for an item just taken from the queue. */
    method TurnTo(r: Ref, expiration: int, ghost before: World)
      requires Linked() && Inv(before, {}, multiset{}) && Earliest(before.q, Entry(expiration, r))
      requires View() == before.(q := before.q - multiset{Entry(expiration, r)})
      modifies Repr()
      ensures Linked() && Grown()
      ensures View() == Event(before, Entry(expiration, r))
    {
      ghost var e := Entry(expiration, r);
      AdvanceInv(before, e);
      QueuedBucket(before, multiset{}, e);
      wheel.AdvanceClock(expiration);
      Flush(r);
    }

    /** One round of Poll: an earliest item if it is due. */
    method Poll(now: int) returns (due: Option<Entry>)
      requires Linked()
      modifies wheel.queue.Repr()
      ensures Linked() && Grown()
      ensures due.None? ==> View() == old(View()) && forall e | e in View().q :: e.priority > now
      ensures due.Some? ==>
        && Earliest(old(View()).q, due.value) && due.value.priority <= now
        && View() == old(View()).(q := old(View()).q - multiset{due.value})
    {
      ghost var ws, q := wheel.Model(), wheel.queue.Contents();
      due := wheel.queue.TakeDue(now);
      assert wheel.Valid() && wheel.Model() == ws && wheel.queue.Contents() == if due.Some? then q - multiset{due.value} else q;
    }

    /** Poll and the bucket loop in Start, once, at time `now`. */
    method NextBucket(now: int) returns (due: Option<Entry>)
      requires Valid()
      modifies Repr()
      ensures Valid() && Grown()
      ensures due.None? ==> View() == old(View()) && forall e | e in View().q :: e.priority > now
      ensures due.Some? ==>
        Earliest(old(View()).q, due.value) && due.value.priority <= now && View() == Event(old(View()), due.value)
    {
      ghost var before := View();
      due := Poll(now);
      if due.Some? {
        EventKeeps(before, due.value);
        EventBalance(before, due.value);
        TurnTo(due.value.ref, due.value.priority, before);
      }
    }

    /** The bucket loop until nothing is due at `now`: it terminates, and is a run of
        bucket events in order. */
    method RunDue(now: int) returns (ghost events: seq<Action>)
      requires Valid() && wheel.currentTime <= now
      modifies Repr()
      ensures Valid() && Grown() && wheel.currentTime <= now
      ensures Settled(State(View(), now)) && (forall a | a in events :: a.Expire?)
      ensures Good(State(old(View()), now)) && Runs(State(old(View()), now), events, State(View(), now))
    {
      events := [];
      ghost var first := State(View(), now);
      var more := true;
      while more
        invariant Valid() && Grown() && Good(State(View(), now)) && Good(first) && forall a | a in events :: a.Expire?
        invariant Runs(first, events, State(View(), now))
        invariant !more ==> Settled(State(View(), now))
        decreases more, now - View().ws[0].currentTime, |DueNow(View())|
      {
        ghost var before := View();
        var due := NextBucket(now);
        more := due.Some?;
        if more {
          EventDecreases(before, due.value);
          RunsOneMore(first, events, State(before, now), Expire(due.value));
          events := events + [Expire(due.value)];
        }
      }
    }
  }
}
