/** Whole runs of the timing wheel: timers are added, stopped and expire bucket by
    bucket, and the tower of wheels is shown to behave like a flat set of deadlines. */
module TimerRuns {
  import opened Wrappers
  import opened Ticks
  import opened PriorityQueues
  import opened WheelSpec
  import opened Transitions

  /** What the timer's back pointer says: InBucket is a non-nil pointer, the other
      three are nil (being reinserted, stopped, or a one-shot timer that has run). */
  datatype Phase = Held | InBucket(ref: Ref) | Stopped | Done

  /** A Timer object. period 0 is AfterFunc; otherwise the timer is rescheduled
      `period` whole milliseconds after each deadline. */
  datatype Rec = Rec(start: int, period: nat, expiration: int, phase: Phase)

  /** A deadline of a timer, and the task or callback run for it. */
  datatype Firing = Firing(id: nat, deadline: int)

  /** begun: the tasks that have been entered; ran: the calls of callbacks, in order. The task of a
      periodic timer adds the timer again before it calls back, so a callback may run later than those of
      deadlines that come after its own. */
  datatype World = World(ws: seq<Wheel>, q: multiset<Entry>, recs: map<nat, Rec>, begun: multiset<Firing>, ran: seq<Firing>)

  /** Operations never change what a timer was asked to do. */
  predicate SamePlans(a: map<nat, Rec>, b: map<nat, Rec>) {
    a.Keys == b.Keys && forall id | id in a :: a[id].start == b[id].start && a[id].period == b[id].period
  }

  // ----- the operations

  /** The task of an expired timer is entered, and a periodic timer moves on. */
  function Begin(w: World, id: nat): World
    requires id in w.recs
  {
    w.(begun := w.begun + multiset{Firing(id, w.recs[id].expiration)}, recs := w.recs[id := Entered(w.recs[id])])
  }

  function Entered(rec: Rec): Rec {
    if rec.period == 0 then rec.(phase := Done) else rec.(expiration := rec.expiration + rec.period)
  }

  /** The task calls f. */
  function Called(w: World, f: Firing): World {
    w.(ran := w.ran + [f])
  }

  /** `addOrRun`, with the synchronous task of a periodic timer calling it again. */
  function AddOrRun(w: World, id: nat): (r: World)
    requires Tower(w.ws) && id in w.recs
    ensures Tower(r.ws) && Extends(w.ws, r.ws) && SamePlans(w.recs, r.recs)
    decreases w.ws[0].currentTime + w.ws[0].tick - w.recs[id].expiration
  {
    InsertEffect(w.ws, 0, id, w.recs[id].expiration);
    var i := Insert(w.ws, 0, id, w.recs[id].expiration);
    if i.ref.Some? then
      World(i.ws, w.q + i.offers, w.recs[id := w.recs[id].(phase := InBucket(i.ref.value))], w.begun, w.ran)
    else
      var f := Firing(id, w.recs[id].expiration);
      if w.recs[id].period == 0 then Called(Begin(w, id), f) else Called(AddOrRun(Begin(w, id), id), f)
  }

  /** AfterFunc (period 0) and ScheduleFunc with an EverySchedule. */
  function AddTimer(w: World, id: nat, start: int, period: nat): World
    requires Tower(w.ws)
  {
    AddOrRun(w.(recs := w.recs[id := Rec(start, period, start, Held)]), id)
  }

  function Without(ts: seq<nat>, id: nat): seq<nat> {
    if ts == [] then [] else if ts[0] == id then ts[1..] else [ts[0]] + Without(ts[1..], id)
  }

  /** `bucket.remove`. */
  function TakeOut(w: World, r: Ref, id: nat, phase: Phase): (v: World)
    requires Tower(w.ws) && ValidRef(w.ws, 0, r) && id in w.recs
    ensures Tower(v.ws) && Extends(w.ws, v.ws) && SamePlans(w.recs, v.recs)
  {
    var b := At(w.ws, 0, r).(timers := Without(At(w.ws, 0, r).timers, id));
    SetBucketEffect(w.ws, r, b);
    w.(ws := SetBucket(w.ws, r, b), recs := w.recs[id := w.recs[id].(phase := phase)])
  }

  /** `Timer.Stop`: true exactly when the timer was still in a bucket. */
  function Stop(w: World, id: nat): (World, bool)
    requires Tower(w.ws) && id in w.recs
    requires w.recs[id].phase.InBucket? ==> ValidRef(w.ws, 0, w.recs[id].phase.ref)
  {
    if w.recs[id].phase.InBucket? then (TakeOut(w, w.recs[id].phase.ref, id, Stopped), true) else (w, false)
  }

  /** The loop of `Flush` over the timers it found in the bucket. */
  function FlushLoop(w: World, r: Ref, ts: seq<nat>): (v: World)
    requires Tower(w.ws) && ValidRef(w.ws, 0, r) && forall id | id in ts :: id in w.recs
    ensures Tower(v.ws) && Extends(w.ws, v.ws) && SamePlans(w.recs, v.recs)
    decreases |ts|
  {
    if ts == [] then w
    else
      var held := TakeOut(w, r, ts[0], Held);
      FlushLoop(AddOrRun(held, ts[0]), r, ts[1..])
  }

  lemma FlushUnfold(w: World, r: Ref, ts: seq<nat>, i: nat)
    requires Tower(w.ws) && ValidRef(w.ws, 0, r) && (forall id | id in ts :: id in w.recs) && i < |ts|
    ensures var v := AddOrRun(TakeOut(w, r, ts[i], Held), ts[i]);
      ValidRef(v.ws, 0, r) && FlushLoop(w, r, ts[i..]) == FlushLoop(v, r, ts[i + 1..])
  {
    assert ts[i..][0] == ts[i] && ts[i..][1..] == ts[i + 1..];
  }

  /** One turn of the loop in `Start`: the item e has been taken from the queue. */
  function Event(w: World, e: Entry): (v: World)
    requires Inv(w, {}, multiset{}) && Earliest(w.q, e)
    ensures SamePlans(w.recs, v.recs)
  {
    QueuedBucket(w, multiset{}, e);
    AdvanceKeeps(w.ws, e.priority);
    var moved := w.(ws := Advance(w.ws, e.priority), q := w.q - multiset{e});
    assert At(moved.ws, 0, e.ref) == At(w.ws, 0, e.ref);
    Flushed(moved, e.ref)
  }

  /** `Flush`: the loop, then SetExpiration(-1). */
  function Flushed(w: World, r: Ref): (v: World)
    requires Tower(w.ws) && ValidRef(w.ws, 0, r) && forall id | id in At(w.ws, 0, r).timers :: id in w.recs
    ensures SamePlans(w.recs, v.recs)
  {
    var f := Emptied(w, r);
    f.(ws := SetBucket(f.ws, r, At(f.ws, 0, r).(expiration := -1)))
  }

  function Emptied(w: World, r: Ref): (v: World)
    requires Tower(w.ws) && ValidRef(w.ws, 0, r) && forall id | id in At(w.ws, 0, r).timers :: id in w.recs
    ensures Tower(v.ws) && Extends(w.ws, v.ws) && SamePlans(w.recs, v.recs)
  {
    FlushLoop(w, r, At(w.ws, 0, r).timers)
  }

  lemma QueuedBucket(w: World, open: multiset<Entry>, e: Entry)
    requires Inv(w, {}, open) && e in w.q + open
    ensures Live(w.ws, e) && ValidRef(w.ws, 0, e.ref) && BucketOk(w.ws, e.ref) && (w.q + open)[e] == 1
    ensures forall id | id in At(w.ws, 0, e.ref).timers :: InPlace(w.ws, w.recs, e.ref, id)
  {
    assert (w.q + open)[e] > 0;
    assert BucketOk(w.ws, e.ref);
  }

  ghost predicate Earliest(q: multiset<Entry>, e: Entry) {
    e in q && forall x | x in q :: e.priority <= x.priority
  }

  // ----- the invariant

  /** A bucket outside the queue is empty; a queued one is keyed by a tick of its
      wheel inside the current turn, not before the base clock. */
  ghost predicate BucketOk(ws: seq<Wheel>, r: Ref)
    requires Tower(ws)
  {
    var b := At(ws, 0, r);
    if b.expiration == -1 then b.timers == []
    else
      && ValidRef(ws, 0, r)
      && var w := ws[r.level];
      && w.tick > 0 && w.size > 0
      && b.expiration % w.tick == 0 && (b.expiration / w.tick) % w.size == r.slot
      && ws[0].currentTime <= b.expiration < w.currentTime + w.Interval()
  }

  ghost predicate Live(ws: seq<Wheel>, e: Entry) {
    e.priority != -1 && At(ws, 0, e.ref).expiration == e.priority
  }

  /** Every queued bucket is in the queue exactly once, under its expiration. */
  ghost predicate QueueOk(ws: seq<Wheel>, q: multiset<Entry>) {
    forall e: Entry :: q[e] == if Live(ws, e) then 1 else 0
  }

  /** All timers of a bucket share one virtual ID, and their back pointers say so. */
  ghost predicate InPlace(ws: seq<Wheel>, recs: map<nat, Rec>, r: Ref, id: nat) {
    && ValidRef(ws, 0, r) && id in recs && recs[id].phase == InBucket(r)
    && At(ws, 0, r).expiration <= recs[id].expiration < At(ws, 0, r).expiration + ws[r.level].tick
  }

  ghost predicate NoDup(ts: seq<nat>) {
    forall i, j | 0 <= i < j < |ts| :: ts[i] != ts[j]
  }

  ghost predicate TimersOk(ws: seq<Wheel>, recs: map<nat, Rec>) {
    && (forall r: Ref, id: nat | id in At(ws, 0, r).timers :: InPlace(ws, recs, r, id))
    && (forall r: Ref :: NoDup(At(ws, 0, r).timers))
    && (forall id | id in recs && recs[id].phase.InBucket? :: id in At(ws, 0, recs[id].phase.ref).timers)
  }

  predicate IsDeadline(rec: Rec, x: int) {
    x == rec.start || (rec.period > 0 && x >= rec.start && (x - rec.start) % rec.period == 0)
  }

  /** Tasks of deadlines before the current expiration have begun; a one-shot timer that is
      done has begun that one too. */
  predicate HasBegun(rec: Rec, x: int) {
    IsDeadline(rec, x) && (x < rec.expiration || (rec.phase.Done? && x == rec.expiration))
  }

  ghost predicate RecOk(rec: Rec) {
    IsDeadline(rec, rec.expiration) && (rec.phase.Done? ==> rec.period == 0)
  }

  ghost predicate RecsOk(recs: map<nat, Rec>, held: set<nat>) {
    && (forall id | id in recs :: RecOk(recs[id]))
    && (forall id | id in recs :: recs[id].phase.Held? <==> id in held)
  }

  ghost predicate BegunOk(w: World)
    requires Tower(w.ws)
  {
    && (forall f: Firing :: w.begun[f] == if f.id in w.recs && HasBegun(w.recs[f.id], f.deadline) then 1 else 0)
    && (forall f | f in w.begun :: f.deadline < w.ws[0].currentTime + w.ws[0].tick)
  }

  /** `held`: timers between removal and reinsertion; `open`: buckets taken from
      the queue and still being flushed. Both are empty between operations. */
  ghost predicate Inv(w: World, held: set<nat>, open: multiset<Entry>) {
    && Tower(w.ws)
    && (forall r: Ref :: BucketOk(w.ws, r))
    && QueueOk(w.ws, w.q + open)
    && TimersOk(w.ws, w.recs)
    && RecsOk(w.recs, held)
    && BegunOk(w)
  }

  // ----- addOrRun

  /** A bucket in use is never re-keyed: an insertion finds it either out of the
      queue or already under the expiration the timer asks for. And no insertion
      goes to the bucket whose time has just come. */
  lemma NeverRekeyed(w: World, id: nat, expiration: int, held: set<nat>, open: multiset<Entry>)
    requires Inv(w, held, open) && Insert(w.ws, 0, id, expiration).ref.Some?
    ensures var i := Insert(w.ws, 0, id, expiration); var p := i.ref.value; var b := At(w.ws, 0, p).expiration;
      && PlacedAt(w.ws, 0, id, expiration, i, p) && Tower(i.ws) && Extends(w.ws, i.ws)
      && (b == -1 || b == At(i.ws, 0, p).expiration)
      && At(i.ws, 0, p).expiration > w.ws[0].currentTime && BucketOk(i.ws, p)
      && i.ws[0] == w.ws[0].(buckets := i.ws[0].buckets)
      && (ValidRef(w.ws, 0, p) ==> b != w.ws[p.level].currentTime)
  {
    InsertEffect(w.ws, 0, id, expiration);
    var i := Insert(w.ws, 0, id, expiration);
    var p := i.ref.value;
    ClockLag(i.ws, p.level);
    var wheel, e := i.ws[p.level], At(i.ws, 0, p).expiration;
    assert i.ws[0] == w.ws[0].(buckets := i.ws[0].buckets);
    assert BucketOk(w.ws, p);
    var b := At(w.ws, 0, p).expiration;
    if b != -1 {
      assert wheel == w.ws[p.level].(buckets := wheel.buckets);
      VirtualWindow(b, wheel.currentTime, wheel.tick, wheel.size);
      VirtualWindow(e, wheel.currentTime, wheel.tick, wheel.size);
      SlotUnique(b / wheel.tick, e / wheel.tick, wheel.currentTime / wheel.tick, wheel.size);
      Quotient(b, wheel.tick);
      Quotient(e, wheel.tick);
    }
  }

  lemma VirtualWindow(x: int, c: int, tick: int, size: int)
    requires tick > 0 && x % tick == 0 && c % tick == 0 && c <= x < c + tick * size
    ensures c / tick <= x / tick < c / tick + size
  {
    Quotient(x, tick);
    Quotient(c, tick);
    if x / tick < c / tick { MulLe(x / tick + 1, c / tick, tick); }
    if x / tick >= c / tick + size { MulLe(c / tick + size, x / tick, tick); }
  }

  lemma PlacedKeeps(w: World, id: nat, open: multiset<Entry>)
    requires Inv(w, {id}, open) && id in w.recs && Insert(w.ws, 0, id, w.recs[id].expiration).ref.Some?
    ensures Inv(AddOrRun(w, id), {}, open)
  {
    var i := Insert(w.ws, 0, id, w.recs[id].expiration);
    var p, v := i.ref.value, AddOrRun(w, id);
    NeverRekeyed(w, id, w.recs[id].expiration, {id}, open);
    assert forall r: Ref :: BucketOk(v.ws, r) by { PlacedBuckets(w, i.ws, p); }
    assert QueueOk(v.ws, v.q + open) by {
      PlacedQueue(w.ws, w.q + open, i, p);
      assert v.q + open == w.q + open + i.offers;
    }
    assert TimersOk(v.ws, v.recs) by {
      assert BucketOk(w.ws, p);
      PlacedTimers(w, v, p, id);
    }
    PhaseChange(w, v, id, {id}, {});
  }

  /** A change of phase other than to or from Done leaves the account of tasks alone. */
  lemma PhaseChange(w: World, v: World, id: nat, held: set<nat>, held': set<nat>)
    requires Tower(w.ws) && Tower(v.ws) && BegunOk(w) && RecsOk(w.recs, held) && id in w.recs && id in v.recs && v.begun == w.begun
    requires v.ws[0].tick == w.ws[0].tick && v.ws[0].currentTime >= w.ws[0].currentTime
    requires v.recs == w.recs[id := w.recs[id].(phase := v.recs[id].phase)]
    requires !w.recs[id].phase.Done? && !v.recs[id].phase.Done?
    requires held' == if v.recs[id].phase.Held? then held + {id} else held - {id}
    ensures BegunOk(v) && RecsOk(v.recs, held')
  {
    assert RecOk(w.recs[id]);
    forall f: Firing
      ensures v.begun[f] == if f.id in v.recs && HasBegun(v.recs[f.id], f.deadline) then 1 else 0
    {
      assert w.begun[f] == if f.id in w.recs && HasBegun(w.recs[f.id], f.deadline) then 1 else 0;
    }
  }

  lemma PlacedBuckets(w: World, vs: seq<Wheel>, p: Ref)
    requires Tower(w.ws) && Tower(vs) && Extends(w.ws, vs) && ValidRef(vs, 0, p)
    requires forall r: Ref :: BucketOk(w.ws, r)
    requires forall x: Ref | x != p :: At(vs, 0, x) == At(w.ws, 0, x)
    requires BucketOk(vs, p)
    ensures forall r: Ref :: BucketOk(vs, r)
  {
    assert vs[0] == w.ws[0].(buckets := vs[0].buckets);
    forall r: Ref
      ensures BucketOk(vs, r)
    {
      assert BucketOk(w.ws, r);
      if r != p && At(w.ws, 0, r).expiration != -1 {
        assert vs[r.level] == w.ws[r.level].(buckets := vs[r.level].buckets);
      }
    }
  }

  lemma PlacedQueue(ws: seq<Wheel>, q: multiset<Entry>, i: Insertion, p: Ref)
    requires QueueOk(ws, q) && At(i.ws, 0, p).expiration != -1
    requires forall x: Ref | x != p :: At(i.ws, 0, x) == At(ws, 0, x)
    requires At(ws, 0, p).expiration == -1 || At(ws, 0, p).expiration == At(i.ws, 0, p).expiration
    requires i.offers == if At(ws, 0, p).expiration != At(i.ws, 0, p).expiration
                         then multiset{Entry(At(i.ws, 0, p).expiration, p)} else multiset{}
    ensures QueueOk(i.ws, q + i.offers)
  {
    forall e: Entry
      ensures (q + i.offers)[e] == if Live(i.ws, e) then 1 else 0
    {
      assert q[e] == if Live(ws, e) then 1 else 0;
    }
  }

  lemma PlacedTimers(w: World, v: World, p: Ref, id: nat)
    requires TimersOk(w.ws, w.recs) && id in w.recs && w.recs[id].phase.Held?
    requires Extends(w.ws, v.ws) && ValidRef(v.ws, 0, p)
    requires v.recs == w.recs[id := w.recs[id].(phase := InBucket(p))]
    requires forall x: Ref | x != p :: At(v.ws, 0, x) == At(w.ws, 0, x)
    requires At(v.ws, 0, p).timers == At(w.ws, 0, p).timers + [id]
    requires At(w.ws, 0, p).timers != [] ==> At(w.ws, 0, p).expiration == At(v.ws, 0, p).expiration
    requires At(v.ws, 0, p).expiration <= w.recs[id].expiration < At(v.ws, 0, p).expiration + v.ws[p.level].tick
    ensures TimersOk(v.ws, v.recs)
  {
    forall r: Ref, x: nat | x in At(v.ws, 0, r).timers
      ensures InPlace(v.ws, v.recs, r, x)
    {
      if r != p || x in At(w.ws, 0, p).timers {
        assert InPlace(w.ws, w.recs, r, x);
        assert v.ws[r.level] == w.ws[r.level].(buckets := v.ws[r.level].buckets);
      }
    }
    forall r: Ref
      ensures NoDup(At(v.ws, 0, r).timers)
    {
      assert NoDup(At(w.ws, 0, r).timers) && !InPlace(w.ws, w.recs, p, id);
    }
  }

  /** Entering a task marks exactly one more deadline as begun. */
  lemma BeginKeeps(w: World, id: nat, open: multiset<Entry>)
    requires Inv(w, {id}, open) && id in w.recs && w.recs[id].expiration < w.ws[0].currentTime + w.ws[0].tick
    ensures Inv(Begin(w, id), if w.recs[id].period == 0 then {} else {id}, open)
  {
    var v, rec := Begin(w, id), w.recs[id];
    forall r: Ref, x: nat | x in At(v.ws, 0, r).timers
      ensures InPlace(v.ws, v.recs, r, x)
    {
      assert InPlace(w.ws, w.recs, r, x);
    }
    forall x: int
      ensures HasBegun(v.recs[id], x) <==> HasBegun(rec, x) || x == rec.expiration
    {
      if rec.period > 0 { NextDeadline(rec, x); }
    }
    assert RecOk(v.recs[id]) by {
      assert RecOk(rec);
      if rec.period > 0 { NextDeadline(rec, rec.expiration); }
    }
    forall f: Firing
      ensures v.begun[f] == if f.id in v.recs && HasBegun(v.recs[f.id], f.deadline) then 1 else 0
    {
      assert w.begun[f] == if f.id in w.recs && HasBegun(w.recs[f.id], f.deadline) then 1 else 0;
    }
  }

  lemma NextDeadline(rec: Rec, x: int)
    requires RecOk(rec) && rec.period > 0
    ensures IsDeadline(rec, x) && rec.expiration <= x < rec.expiration + rec.period ==> x == rec.expiration
    ensures IsDeadline(rec, rec.expiration + rec.period)
  {
    Multiple(0, rec.period);
    var k := rec.expiration - rec.start;
    SumOfMultiples(k, rec.period, rec.period) by { Multiple(1, rec.period); }
    if IsDeadline(rec, x) && rec.expiration <= x < rec.expiration + rec.period {
      SameMultiple(k, x - rec.start, rec.period);
    }
  }

  /** `addOrRun` keeps the invariant, whatever catching up it has to do. */
  lemma {:induction false} AddOrRunKeeps(w: World, id: nat, open: multiset<Entry>)
    requires Inv(w, {id}, open) && id in w.recs
    ensures Inv(AddOrRun(w, id), {}, open)
    decreases w.ws[0].currentTime + w.ws[0].tick - w.recs[id].expiration
  {
    InsertEffect(w.ws, 0, id, w.recs[id].expiration);
    if Insert(w.ws, 0, id, w.recs[id].expiration).ref.Some? {
      PlacedKeeps(w, id, open);
    } else {
      BeginKeeps(w, id, open);
      if w.recs[id].period > 0 { AddOrRunKeeps(Begin(w, id), id, open); }
      CallKeeps(if w.recs[id].period == 0 then Begin(w, id) else AddOrRun(Begin(w, id), id), Firing(id, w.recs[id].expiration), open);
    }
  }

  lemma CallKeeps(w: World, f: Firing, open: multiset<Entry>)
    requires Inv(w, {}, open)
    ensures Inv(Called(w, f), {}, open)
  {}

  /** What the base wheel shows. */
  datatype Clock = Clock(time: int, tick: int)
  {
    /** A deadline that the base wheel refuses, since it is over. */
    predicate Over(x: int) { x < time + tick }
  }

  function ClockOf(w: World): Clock
    requires Tower(w.ws)
  {
    Clock(w.ws[0].currentTime, w.ws[0].tick)
  }

  /** The callbacks of one catch-up: the task of a deadline calls back after the tasks of all later ones. */
  function CatchUp(id: nat, deadline: int, period: nat, clock: Clock): seq<Firing>
    decreases clock.time + clock.tick - deadline
  {
    if !clock.Over(deadline) then []
    else if period == 0 then [Firing(id, deadline)]
    else CatchUp(id, deadline + period, period, clock) + [Firing(id, deadline)]
  }

  /** The callbacks of a timer that is to be added. */
  function Overdue(id: nat, rec: Rec, clock: Clock): seq<Firing> {
    CatchUp(id, rec.expiration, rec.period, clock)
  }

  /** The tasks that were entered have called back, in this order. */
  ghost predicate Adds(w: World, v: World, calls: seq<Firing>) {
    v.ran == w.ran + calls && v.begun == w.begun + multiset(calls)
  }

  lemma AddsTrans(w: World, m: World, v: World, a: seq<Firing>, b: seq<Firing>)
    requires Adds(w, m, a) && Adds(m, v, b)
    ensures Adds(w, v, a + b)
  {
    assert w.ran + a + b == w.ran + (a + b);
  }

  /** A task that calls back last. */
  lemma AddsLast(w: World, m: World, v: World, later: seq<Firing>, f: Firing, calls: seq<Firing>)
    requires m.ran == w.ran && m.begun == w.begun + multiset{f} && Adds(m, v, later) && calls == later + [f]
    ensures Adds(w, Called(v, f), calls)
  {
    assert w.ran + later + [f] == w.ran + (later + [f]);
  }

  /** What `addOrRun` calls. */
  lemma {:induction false} AddOrRunCalls(w: World, id: nat)
    requires Tower(w.ws) && id in w.recs
    ensures Adds(w, AddOrRun(w, id), Overdue(id, w.recs[id], ClockOf(w)))
    decreases w.ws[0].currentTime + w.ws[0].tick - w.recs[id].expiration
  {
    InsertEffect(w.ws, 0, id, w.recs[id].expiration);
    if ClockOf(w).Over(w.recs[id].expiration) {
      var m := Begin(w, id);
      TaskIs(w, id);
      if w.recs[id].period > 0 { AddOrRunCalls(m, id); }
      TaskCalls(w, id, if w.recs[id].period > 0 then AddOrRun(m, id) else m);
    }
  }

  lemma TaskIs(w: World, id: nat)
    requires Tower(w.ws) && id in w.recs && ClockOf(w).Over(w.recs[id].expiration)
    ensures var m := Begin(w, id);
      AddOrRun(w, id) == Called(if w.recs[id].period > 0 then AddOrRun(m, id) else m, Firing(id, w.recs[id].expiration))
  {
    InsertEffect(w.ws, 0, id, w.recs[id].expiration);
  }

  /** The task of an expired timer calls back after v, which adding the timer again has led to. */
  lemma TaskCalls(w: World, id: nat, v: World)
    requires Tower(w.ws) && id in w.recs && ClockOf(w).Over(w.recs[id].expiration)
    requires var m := Begin(w, id);
      if w.recs[id].period > 0 then Adds(m, v, Overdue(id, m.recs[id], ClockOf(m))) else v == m
    ensures Adds(w, Called(v, Firing(id, w.recs[id].expiration)), Overdue(id, w.recs[id], ClockOf(w)))
  {
    var m, rec := Begin(w, id), w.recs[id];
    OverdueStep(id, rec, ClockOf(w));
    AddsLast(w, m, v, if rec.period > 0 then Overdue(id, m.recs[id], ClockOf(m)) else [], Firing(id, rec.expiration), Overdue(id, rec, ClockOf(w)));
  }

  lemma OverdueStep(id: nat, rec: Rec, clock: Clock)
    requires clock.Over(rec.expiration)
    ensures Overdue(id, rec, clock) ==
      (if rec.period > 0 then Overdue(id, rec.(expiration := rec.expiration + rec.period), clock) else []) + [Firing(id, rec.expiration)]
  {}

  /** It leaves the timer in a bucket or, if it is one-shot, done, and the other timers and the clock alone. */
  lemma {:induction false} AddOrRunLeaves(w: World, id: nat)
    requires Tower(w.ws) && id in w.recs
    ensures var v := AddOrRun(w, id);
      && id in v.recs && v.recs == w.recs[id := v.recs[id]] && (v.recs[id].phase.InBucket? || v.recs[id].phase.Done?)
      && ClockOf(v) == ClockOf(w)
    decreases w.ws[0].currentTime + w.ws[0].tick - w.recs[id].expiration
  {
    InsertEffect(w.ws, 0, id, w.recs[id].expiration);
    if Insert(w.ws, 0, id, w.recs[id].expiration).ref.None? && w.recs[id].period > 0 {
      var m := Begin(w, id);
      AddOrRunLeaves(m, id);
      Overwrite(w.recs, id, m.recs[id], AddOrRun(m, id).recs[id]);
    }
  }

  /** While the bucket r is being flushed nothing is put back into it, and no new
      queue item is due: `addOrRun` only offers buckets after the base clock. */
  lemma {:induction false} AddOrRunFrame(w: World, id: nat, open: multiset<Entry>, r: Ref)
    requires Inv(w, {id}, open) && id in w.recs
    ensures var v := AddOrRun(w, id);
      && v.ws[0].currentTime == w.ws[0].currentTime && v.ws[0].tick == w.ws[0].tick
      && (ValidRef(w.ws, 0, r) && At(w.ws, 0, r).expiration == w.ws[r.level].currentTime ==> At(v.ws, 0, r) == At(w.ws, 0, r))
      && (forall x: Entry | x.priority <= w.ws[0].currentTime :: v.q[x] == w.q[x])
      && (forall x | x in w.recs && x != id :: v.recs[x] == w.recs[x])
    decreases w.ws[0].currentTime + w.ws[0].tick - w.recs[id].expiration
  {
    InsertEffect(w.ws, 0, id, w.recs[id].expiration);
    if Insert(w.ws, 0, id, w.recs[id].expiration).ref.Some? {
      PlacedFrame(w, id, open, r);
    } else if w.recs[id].period > 0 {
      BeginKeeps(w, id, open);
      AddOrRunFrame(Begin(w, id), id, open, r);
    }
  }

  lemma PlacedFrame(w: World, id: nat, open: multiset<Entry>, r: Ref)
    requires Inv(w, {id}, open) && id in w.recs && Insert(w.ws, 0, id, w.recs[id].expiration).ref.Some?
    ensures var v := AddOrRun(w, id);
      && v.ws[0].currentTime == w.ws[0].currentTime && v.ws[0].tick == w.ws[0].tick
      && (ValidRef(w.ws, 0, r) && At(w.ws, 0, r).expiration == w.ws[r.level].currentTime ==> At(v.ws, 0, r) == At(w.ws, 0, r))
      && (forall x: Entry | x.priority <= w.ws[0].currentTime :: v.q[x] == w.q[x])
      && (forall x | x in w.recs && x != id :: v.recs[x] == w.recs[x])
  {
    NeverRekeyed(w, id, w.recs[id].expiration, {id}, open);
    assert BucketOk(w.ws, r);
  }

  // ----- taking a timer out of its bucket

  lemma {:induction false} WithoutMembers(ts: seq<nat>, id: nat)
    requires NoDup(ts) && id in ts
    ensures NoDup(Without(ts, id)) && forall x :: x in Without(ts, id) <==> x in ts && x != id
  {
    if ts[0] != id {
      forall i, j | 0 <= i < j < |ts[1..]| ensures ts[1..][i] != ts[1..][j] {}
      WithoutMembers(ts[1..], id);
      var rest := Without(ts[1..], id);
      forall x ensures x in Without(ts, id) <==> x in ts && x != id {
        assert x in ts <==> x == ts[0] || x in ts[1..];
      }
      assert forall k | 0 <= k < |ts[1..]| :: ts[1..][k] != ts[0];
      assert ts[0] !in rest;
      assert Without(ts, id) == [ts[0]] + rest;
    } else {
      forall x ensures x in ts[1..] <==> x in ts && x != id {
        assert ts == [ts[0]] + ts[1..];
        if x in ts[1..] { var i :| 0 <= i < |ts[1..]| && ts[1..][i] == x; assert ts[0] != ts[i + 1]; }
      }
      forall i, j | 0 <= i < j < |ts[1..]| ensures ts[1..][i] != ts[1..][j] {}
    }
  }

  /** Removing one timer, to reinsert it or because Stop was called. */
  lemma TakeOutKeeps(w: World, r: Ref, id: nat, phase: Phase, open: multiset<Entry>)
    requires Inv(w, {}, open) && id in At(w.ws, 0, r).timers && (phase.Held? || phase.Stopped?)
    ensures ValidRef(w.ws, 0, r) && id in w.recs
    ensures var v := TakeOut(w, r, id, phase);
      && Inv(v, if phase.Held? then {id} else {}, open)
      && v.ws[0].currentTime == w.ws[0].currentTime && v.ws[0].tick == w.ws[0].tick
  {
    assert InPlace(w.ws, w.recs, r, id);
    var v := TakeOut(w, r, id, phase);
    var b := At(w.ws, 0, r).(timers := Without(At(w.ws, 0, r).timers, id));
    SetBucketEffect(w.ws, r, b);
    assert v.ws[0] == w.ws[0].(buckets := v.ws[0].buckets);
    assert NoDup(At(w.ws, 0, r).timers);
    WithoutMembers(At(w.ws, 0, r).timers, id);
    assert BucketOk(w.ws, r);
    PlacedBuckets(w, v.ws, r);
    assert QueueOk(v.ws, v.q + open) by { SameQueue(w.ws, v.ws, w.q + open); }
    TakenTimers(w, v, r, id);
    PhaseChange(w, v, id, {}, if phase.Held? then {id} else {});
  }

  lemma SameQueue(ws: seq<Wheel>, vs: seq<Wheel>, q: multiset<Entry>)
    requires QueueOk(ws, q) && forall x: Ref :: At(vs, 0, x).expiration == At(ws, 0, x).expiration
    ensures QueueOk(vs, q)
  {
    forall e: Entry ensures q[e] == if Live(vs, e) then 1 else 0 {
      assert q[e] == if Live(ws, e) then 1 else 0;
    }
  }

  lemma TakenTimers(w: World, v: World, r: Ref, id: nat)
    requires TimersOk(w.ws, w.recs) && Extends(w.ws, v.ws) && ValidRef(w.ws, 0, r) && id in w.recs && id in v.recs
    requires v.recs == w.recs[id := w.recs[id].(phase := v.recs[id].phase)] && !v.recs[id].phase.InBucket?
    requires forall x: Ref | x != r :: At(v.ws, 0, x) == At(w.ws, 0, x)
    requires At(v.ws, 0, r).expiration == At(w.ws, 0, r).expiration && w.recs[id].phase == InBucket(r)
    requires NoDup(At(v.ws, 0, r).timers)
    requires forall x :: x in At(v.ws, 0, r).timers <==> x in At(w.ws, 0, r).timers && x != id
    ensures TimersOk(v.ws, v.recs)
  {
    forall x: Ref, y: nat | y in At(v.ws, 0, x).timers
      ensures InPlace(v.ws, v.recs, x, y)
    {
      assert y in At(w.ws, 0, x).timers;
      assert InPlace(w.ws, w.recs, x, y);
      assert v.ws[x.level] == w.ws[x.level].(buckets := v.ws[x.level].buckets);
    }
    forall x: Ref ensures NoDup(At(v.ws, 0, x).timers) {
      assert NoDup(At(w.ws, 0, x).timers);
    }
  }

  // ----- a bucket's turn

  /** The clocks move to the due bucket's expiration, which becomes the base clock
      and the clock of the bucket's own wheel. */
  lemma AdvanceInv(w: World, e: Entry)
    requires Inv(w, {}, multiset{}) && Earliest(w.q, e)
    ensures e.priority >= w.ws[0].currentTime
    ensures var m := w.(ws := Advance(w.ws, e.priority), q := w.q - multiset{e});
      && Inv(m, {}, multiset{e}) && m.ws[0].currentTime == e.priority && m.ws[0].tick == w.ws[0].tick
      && ValidRef(m.ws, 0, e.ref) && m.ws[e.ref.level].currentTime == e.priority
      && forall x: Ref :: At(m.ws, 0, x) == At(w.ws, 0, x)
  {
    QueuedBucket(w, multiset{}, e);
    AdvanceKeeps(w.ws, e.priority);
    var vs := Advance(w.ws, e.priority);
    ClockLag(w.ws, e.ref.level);
    ClockLag(vs, e.ref.level);
    SumOfMultiples(e.priority, w.ws[e.ref.level].tick, w.ws[0].tick);
    TruncateUnique(e.priority, e.priority, w.ws[0].tick);
    assert vs[e.ref.level].tick == w.ws[e.ref.level].tick;
    SameMultiple(vs[e.ref.level].currentTime, e.priority, vs[e.ref.level].tick);
    forall x: Ref ensures At(vs, 0, x) == At(w.ws, 0, x) {}
    var m := w.(ws := vs, q := w.q - multiset{e});
    forall r: Ref ensures BucketOk(vs, r) {
      assert BucketOk(w.ws, r);
      if At(w.ws, 0, r).expiration != -1 { LiveIsQueued(w, r); }
    }
    assert m.q + multiset{e} == w.q && w.q + multiset{} == w.q;
    SameQueue(w.ws, vs, w.q);
    forall r: Ref, id: nat | id in At(vs, 0, r).timers ensures InPlace(vs, m.recs, r, id) {
      assert InPlace(w.ws, w.recs, r, id);
    }
    forall r: Ref ensures NoDup(At(vs, 0, r).timers) { assert NoDup(At(w.ws, 0, r).timers); }
  }

  lemma LiveIsQueued(w: World, r: Ref)
    requires Inv(w, {}, multiset{}) && At(w.ws, 0, r).expiration != -1
    ensures Entry(At(w.ws, 0, r).expiration, r) in w.q
  {
    var x := Entry(At(w.ws, 0, r).expiration, r);
    assert (w.q + multiset{})[x] == 1;
  }

  /** One turn of the loop: the first timer leaves the bucket and is reinserted. */
  lemma FlushStep(w: World, e: Entry, id: nat, rest: seq<nat>)
    requires Inv(w, {}, multiset{e}) && ValidRef(w.ws, 0, e.ref) && At(w.ws, 0, e.ref) == Bucket(e.priority, [id] + rest)
    requires w.ws[e.ref.level].currentTime == e.priority
    ensures id in w.recs
    ensures var v := AddOrRun(TakeOut(w, e.ref, id, Held), id);
      && Inv(v, {}, multiset{e}) && At(v.ws, 0, e.ref) == Bucket(e.priority, rest)
      && v.ws[0].currentTime == w.ws[0].currentTime && v.ws[0].tick == w.ws[0].tick
      && ValidRef(v.ws, 0, e.ref) && v.ws[e.ref.level].currentTime == e.priority
      && (forall x: Entry | x.priority <= w.ws[0].currentTime :: v.q[x] == w.q[x])
      && (forall x | x in w.recs && x != id :: x in v.recs && v.recs[x] == w.recs[x])
  {
    TakeOutKeeps(w, e.ref, id, Held, multiset{e});
    var held := TakeOut(w, e.ref, id, Held);
    assert Without([id] + rest, id) == rest;
    SetBucketEffect(w.ws, e.ref, Bucket(e.priority, rest));
    AddOrRunKeeps(held, id, multiset{e});
    AddOrRunFrame(held, id, multiset{e}, e.ref);
    var v := AddOrRun(held, id);
    assert v.ws[e.ref.level] == w.ws[e.ref.level].(buckets := v.ws[e.ref.level].buckets);
  }

  lemma {:induction false} FlushLoopKeeps(w: World, e: Entry, ts: seq<nat>)
    requires Inv(w, {}, multiset{e}) && ValidRef(w.ws, 0, e.ref) && At(w.ws, 0, e.ref) == Bucket(e.priority, ts)
    requires w.ws[e.ref.level].currentTime == e.priority
    ensures forall id | id in ts :: id in w.recs
    ensures var v := FlushLoop(w, e.ref, ts);
      && Inv(v, {}, multiset{e}) && At(v.ws, 0, e.ref) == Bucket(e.priority, [])
      && v.ws[0].currentTime == w.ws[0].currentTime && v.ws[0].tick == w.ws[0].tick
      && (forall x: Entry | x.priority <= w.ws[0].currentTime :: v.q[x] == w.q[x])
      && (forall x | x in w.recs && x !in ts :: x in v.recs && v.recs[x] == w.recs[x])
      && (forall id | id in ts :: id in v.recs && (v.recs[id].phase.InBucket? || v.recs[id].phase.Done?))
    decreases |ts|
  {
    forall id | id in ts ensures id in w.recs { assert InPlace(w.ws, w.recs, e.ref, id); }
    FlushLeaves(w, e.ref, ts);
    if ts != [] {
      assert ts == [ts[0]] + ts[1..];
      FlushStep(w, e, ts[0], ts[1..]);
      FlushLoopKeeps(AddOrRun(TakeOut(w, e.ref, ts[0], Held), ts[0]), e, ts[1..]);
    }
  }

  /** The callbacks of a flush: the catch-ups of the timers in the order of the bucket. */
  function Reinserted(recs: map<nat, Rec>, ts: seq<nat>, clock: Clock): seq<Firing>
    requires forall id | id in ts :: id in recs
  {
    if ts == [] then [] else Overdue(ts[0], recs[ts[0]], clock) + Reinserted(recs, ts[1..], clock)
  }

  function Flushing(w: World, r: Ref, clock: Clock): seq<Firing>
    requires Tower(w.ws) && forall id | id in At(w.ws, 0, r).timers :: id in w.recs
  {
    Reinserted(w.recs, At(w.ws, 0, r).timers, clock)
  }

  lemma {:induction false} SameReinserted(a: map<nat, Rec>, b: map<nat, Rec>, ts: seq<nat>, clock: Clock)
    requires forall id | id in ts :: id in a && id in b && a[id].expiration == b[id].expiration && a[id].period == b[id].period
    ensures Reinserted(a, ts, clock) == Reinserted(b, ts, clock)
  {
    if ts != [] { SameReinserted(a, b, ts[1..], clock); }
  }

  /** One turn: the timer's catch-up, and what happens to it. */
  lemma TurnCalls(w: World, r: Ref, id: nat)
    requires Tower(w.ws) && ValidRef(w.ws, 0, r) && id in w.recs
    ensures var v := AddOrRun(TakeOut(w, r, id, Held), id);
      && Adds(w, v, Overdue(id, w.recs[id], ClockOf(w)))
      && id in v.recs && v.recs == w.recs[id := v.recs[id]] && (v.recs[id].phase.InBucket? || v.recs[id].phase.Done?)
      && ClockOf(v) == ClockOf(w)
  {
    var held := TakeOut(w, r, id, Held);
    SetBucketEffect(w.ws, r, At(w.ws, 0, r).(timers := Without(At(w.ws, 0, r).timers, id)));
    AddOrRunCalls(held, id);
    AddOrRunLeaves(held, id);
    Overwrite(w.recs, id, held.recs[id], AddOrRun(held, id).recs[id]);
    AddsSame(w, held, AddOrRun(held, id), AddOrRun(held, id), Overdue(id, w.recs[id], ClockOf(w)));
  }

  /** What the loop of `Flush` calls. */
  lemma {:induction false} FlushCalls(w: World, r: Ref, ts: seq<nat>)
    requires Tower(w.ws) && ValidRef(w.ws, 0, r) && (forall id | id in ts :: id in w.recs) && NoDup(ts)
    ensures Adds(w, FlushLoop(w, r, ts), Reinserted(w.recs, ts, ClockOf(w)))
    decreases |ts|
  {
    if ts != [] {
      var id, rest := ts[0], ts[1..];
      var v := AddOrRun(TakeOut(w, r, id, Held), id);
      TurnCalls(w, r, id);
      NoDupTail(ts);
      FlushCalls(v, r, rest);
      SameReinserted(w.recs, v.recs, rest, ClockOf(w));
      AddsTrans(w, v, FlushLoop(v, r, rest), Overdue(id, w.recs[id], ClockOf(w)), Reinserted(v.recs, rest, ClockOf(w)));
    }
  }

  lemma FlushedCalls(w: World, r: Ref)
    requires Tower(w.ws) && ValidRef(w.ws, 0, r) && (forall id | id in At(w.ws, 0, r).timers :: id in w.recs)
    requires NoDup(At(w.ws, 0, r).timers)
    ensures Adds(w, Flushed(w, r), Flushing(w, r, ClockOf(w)))
  {
    var ts := At(w.ws, 0, r).timers;
    FlushCalls(w, r, ts);
    AddsSame(w, w, FlushLoop(w, r, ts), Flushed(w, r), Reinserted(w.recs, ts, ClockOf(w)));
  }

  lemma NoDupTail(ts: seq<nat>)
    requires NoDup(ts) && ts != []
    ensures NoDup(ts[1..]) && forall x | x in ts[1..] :: x != ts[0]
  {
    forall i, j | 0 <= i < j < |ts[1..]| ensures ts[1..][i] != ts[1..][j] { assert ts[i + 1] != ts[j + 1]; }
  }

  /** Every timer of the bucket ends in a bucket or, if it is one-shot, done, and no other timer changes. */
  lemma {:induction false} FlushLeaves(w: World, r: Ref, ts: seq<nat>)
    requires Tower(w.ws) && ValidRef(w.ws, 0, r) && forall id | id in ts :: id in w.recs
    ensures var v := FlushLoop(w, r, ts);
      && (forall id | id in ts :: id in v.recs && (v.recs[id].phase.InBucket? || v.recs[id].phase.Done?))
      && (forall id | id in v.recs && id !in ts :: id in w.recs && v.recs[id] == w.recs[id])
    decreases |ts|
  {
    if ts != [] {
      TurnCalls(w, r, ts[0]);
      FlushLeaves(AddOrRun(TakeOut(w, r, ts[0], Held), ts[0]), r, ts[1..]);
    }
  }

  /** Closing the flushed bucket takes it out of the account of queued buckets. */
  lemma CloseBucket(w: World, e: Entry)
    requires Inv(w, {}, multiset{e}) && ValidRef(w.ws, 0, e.ref) && At(w.ws, 0, e.ref) == Bucket(e.priority, [])
    ensures var v := w.(ws := SetBucket(w.ws, e.ref, EMPTY));
      && Inv(v, {}, multiset{}) && v.ws[0] == w.ws[0].(buckets := v.ws[0].buckets)
  {
    SetBucketEffect(w.ws, e.ref, EMPTY);
    var v := w.(ws := SetBucket(w.ws, e.ref, EMPTY));
    assert v.ws[0] == w.ws[0].(buckets := v.ws[0].buckets);
    QueuedBucket(w, multiset{e}, e);
    PlacedBuckets(w, v.ws, e.ref);
    forall x: Entry ensures (v.q + multiset{})[x] == if Live(v.ws, x) then 1 else 0 {
      assert (w.q + multiset{e})[x] == if Live(w.ws, x) then 1 else 0;
    }
    forall r: Ref, id: nat | id in At(v.ws, 0, r).timers ensures InPlace(v.ws, v.recs, r, id) {
      assert InPlace(w.ws, w.recs, r, id);
      assert v.ws[r.level] == w.ws[r.level].(buckets := v.ws[r.level].buckets);
    }
    forall r: Ref ensures NoDup(At(v.ws, 0, r).timers) { assert NoDup(At(w.ws, 0, r).timers); }
  }

  /** A whole bucket event. The queue items due at the new base clock are the old
      ones without e, so events at one instant run out and the clock then moves on. */
  lemma EventKeeps(w: World, e: Entry)
    requires Inv(w, {}, multiset{}) && Earliest(w.q, e)
    ensures w.ws[0].currentTime <= e.priority
    ensures var v := Event(w, e);
      && Inv(v, {}, multiset{}) && v.ws[0].currentTime == e.priority && v.ws[0].tick == w.ws[0].tick
      && (forall x: Entry | x.priority <= e.priority :: v.q[x] == (w.q - multiset{e})[x])
      && SameStopped(w.recs, v.recs)
  {
    QueuedBucket(w, multiset{}, e);
    AdvanceInv(w, e);
    EventStops(w, e);
    var m := w.(ws := Advance(w.ws, e.priority), q := w.q - multiset{e});
    var ts := At(m.ws, 0, e.ref).timers;
    FlushLoopKeeps(m, e, ts);
    CloseBucket(FlushLoop(m, e.ref, ts), e);
  }

  /** What a bucket event calls, when the base clock shows the bucket's time. */
  lemma EventCalls(w: World, e: Entry)
    requires Inv(w, {}, multiset{}) && Earliest(w.q, e)
    ensures InBuckets(w, e.ref)
    ensures Adds(w, Event(w, e), Flushing(w, e.ref, Clock(e.priority, w.ws[0].tick)))
  {
    QueuedBucket(w, multiset{}, e);
    AdvanceInv(w, e);
    var m := w.(ws := Advance(w.ws, e.priority), q := w.q - multiset{e});
    assert NoDup(At(w.ws, 0, e.ref).timers);
    var clock := Clock(e.priority, w.ws[0].tick);
    FlushedCalls(m, e.ref);
    assert Event(w, e) == Flushed(m, e.ref) && Flushing(m, e.ref, clock) == Flushing(w, e.ref, clock);
    AddsSame(w, m, Event(w, e), Event(w, e), Flushing(w, e.ref, clock));
  }

  lemma AddsSame(w: World, m: World, u: World, v: World, calls: seq<Firing>)
    requires Adds(m, u, calls) && m.ran == w.ran && m.begun == w.begun && v.ran == u.ran && v.begun == u.begun
    ensures Adds(w, v, calls)
  {}

  ghost predicate InBuckets(w: World, r: Ref) {
    forall id | id in At(w.ws, 0, r).timers :: id in w.recs && w.recs[id].phase == InBucket(r)
  }

  /** The timers that are stopped after it are those that were. */
  lemma EventStops(w: World, e: Entry)
    requires Inv(w, {}, multiset{}) && Earliest(w.q, e)
    ensures SameStopped(w.recs, Event(w, e).recs)
  {
    QueuedBucket(w, multiset{}, e);
    AdvanceInv(w, e);
    var m := w.(ws := Advance(w.ws, e.priority), q := w.q - multiset{e});
    FlushLeaves(m, e.ref, At(m.ws, 0, e.ref).timers);
    FlushStops(w.recs, FlushLoop(m, e.ref, At(m.ws, 0, e.ref).timers).recs, At(m.ws, 0, e.ref).timers);
  }

  lemma FlushStops(a: map<nat, Rec>, b: map<nat, Rec>, ts: seq<nat>)
    requires a.Keys == b.Keys
    requires forall id | id in ts :: id in a && a[id].phase.InBucket? && id in b && !b[id].phase.Stopped?
    requires forall id | id in b && id !in ts :: id in a && b[id] == a[id]
    ensures SameStopped(a, b)
  {}

  ghost predicate SameStopped(a: map<nat, Rec>, b: map<nat, Rec>) {
    (forall id | id in a && a[id].phase.Stopped? :: id in b && b[id] == a[id]) &&
    (forall id | id in b && b[id].phase.Stopped? :: id in a && a[id].phase.Stopped?)
  }

  // ----- whole runs

  datatype Action =
    | Arm(id: nat, start: int, period: nat)  // AfterFunc or ScheduleFunc makes a new Timer
    | Cancel(id: nat)                        // Timer.Stop
    | Elapse(now: int)                       // the wall clock moves on
    | Expire(e: Entry)                       // the poller hands over the earliest due bucket

  /** The wheel and the wall clock. */
  datatype State = State(w: World, now: int)

  /** Between operations every task that was entered has called back. */
  ghost predicate Balanced(w: World) {
    multiset(w.ran) == w.begun
  }

  ghost predicate Good(s: State) {
    Inv(s.w, {}, multiset{}) && s.w.ws[0].currentTime <= s.now && Balanced(s.w)
  }

  ghost predicate Enabled(s: State, a: Action) {
    match a
    case Arm(id, _, _) => id !in s.w.recs
    case Cancel(id) => id in s.w.recs
    case Elapse(now) => s.now <= now
    case Expire(e) => Earliest(s.w.q, e) && e.priority <= s.now
  }

  lemma HeldTimer(w: World, id: nat, start: int, period: nat)
    requires Inv(w, {}, multiset{}) && id !in w.recs
    ensures Inv(w.(recs := w.recs[id := Rec(start, period, start, Held)]), {id}, multiset{})
  {
    var m := w.(recs := w.recs[id := Rec(start, period, start, Held)]);
    if period > 0 { Multiple(0, period); }
    forall r: Ref, x: nat | x in At(m.ws, 0, r).timers ensures InPlace(m.ws, m.recs, r, x) {
      assert InPlace(w.ws, w.recs, r, x);
    }
    forall f: Firing ensures m.begun[f] == if f.id in m.recs && HasBegun(m.recs[f.id], f.deadline) then 1 else 0 {
      assert w.begun[f] == if f.id in w.recs && HasBegun(w.recs[f.id], f.deadline) then 1 else 0;
      if f.id == id && period > 0 && IsDeadline(m.recs[id], f.deadline) { assert f.deadline >= start; }
    }
  }

  lemma AddTimerKeeps(w: World, id: nat, start: int, period: nat)
    requires Inv(w, {}, multiset{}) && id !in w.recs
    ensures var v := AddTimer(w, id, start, period);
      && Inv(v, {}, multiset{})
      && v.ws[0].currentTime == w.ws[0].currentTime && v.ws[0].tick == w.ws[0].tick
      && (forall x | x in w.recs :: x in v.recs && v.recs[x] == w.recs[x])
  {
    HeldTimer(w, id, start, period);
    var m := w.(recs := w.recs[id := Rec(start, period, start, Held)]);
    AddOrRunKeeps(m, id, multiset{});
    AddOrRunFrame(m, id, multiset{}, Ref(0, 0));
  }

  /** What a new timer calls at once; it is not stopped. */
  lemma AddTimerCalls(w: World, id: nat, start: int, period: nat)
    requires Tower(w.ws) && id !in w.recs
    ensures var v, calls := AddTimer(w, id, start, period), Overdue(id, Rec(start, period, start, Held), ClockOf(w));
      Adds(w, v, calls) && SameStopped(w.recs, v.recs)
  {
    var m := w.(recs := w.recs[id := Rec(start, period, start, Held)]);
    AddOrRunCalls(m, id);
    AddOrRunLeaves(m, id);
    AddsSame(w, m, AddTimer(w, id, start, period), AddTimer(w, id, start, period), Overdue(id, Rec(start, period, start, Held), ClockOf(w)));
  }

  /** Stop takes effect at once: it is true exactly when the timer was queued, and
      then the timer is in no bucket any more. */
  lemma StopKeeps(w: World, id: nat)
    requires Inv(w, {}, multiset{}) && id in w.recs
    ensures w.recs[id].phase.InBucket? ==> ValidRef(w.ws, 0, w.recs[id].phase.ref)
    ensures var (v, stopped) := Stop(w, id);
      && Inv(v, {}, multiset{}) && v.ran == w.ran && v.begun == w.begun && v.q == w.q
      && v.ws[0].currentTime == w.ws[0].currentTime && v.ws[0].tick == w.ws[0].tick
      && (stopped ==> id in v.recs && v.recs[id].phase.Stopped? && forall r: Ref :: id !in At(v.ws, 0, r).timers)
      && (!stopped ==> v == w && (w.recs[id].phase.Done? || w.recs[id].phase.Stopped?))
      && (forall x | x in w.recs && x != id :: x in v.recs && v.recs[x] == w.recs[x])
  {
    if w.recs[id].phase.InBucket? {
      var r := w.recs[id].phase.ref;
      TakeOutKeeps(w, r, id, Stopped, multiset{});
      var v := TakeOut(w, r, id, Stopped);
      forall x: Ref ensures id !in At(v.ws, 0, x).timers { assert !InPlace(v.ws, v.recs, x, id); }
    }
  }

  /** The timers known after some actions are those known before and those armed, and those stopped are
      those stopped before and those that a Stop was called for. */
  ghost predicate Carried(before: map<nat, Rec>, actions: seq<Action>, after: map<nat, Rec>) {
    && before.Keys <= after.Keys
    && (forall id | id in before :: after[id].start == before[id].start && after[id].period == before[id].period)
    && (forall id | id in after && id !in before :: Arm(id, after[id].start, after[id].period) in actions)
    && (forall a | a in actions && a.Arm? :: a.id in after && a.id !in before && after[a.id].start == a.start && after[a.id].period == a.period)
    && (forall id | id in after && after[id].phase.Stopped? :: (id in before && before[id].phase.Stopped?) || Cancel(id) in actions)
  }

  lemma CarriedChain(a: map<nat, Rec>, b: map<nat, Rec>, actions: seq<Action>, c: map<nat, Rec>)
    requires actions != [] && Carried(a, [actions[0]], b) && Carried(b, actions[1..], c)
    ensures Carried(a, actions, c)
  {
    assert actions == [actions[0]] + actions[1..];
  }

  /** The callbacks of an action, in order. */
  ghost function NewCalls(s: State, a: Action): seq<Firing>
    requires Good(s) && Enabled(s, a)
  {
    match a
    case Arm(id, start, period) => Overdue(id, Rec(start, period, start, Held), ClockOf(s.w))
    case Expire(e) =>
      EventCalls(s.w, e);
      Flushing(s.w, e.ref, Clock(e.priority, s.w.ws[0].tick))
    case _ => []
  }

  lemma StaysBalanced(w: World, v: World, calls: seq<Firing>)
    requires Balanced(w) && Adds(w, v, calls)
    ensures Balanced(v)
  {}

  lemma AddTimerBalance(w: World, id: nat, start: int, period: nat)
    requires Tower(w.ws) && id !in w.recs && Balanced(w)
    ensures Balanced(AddTimer(w, id, start, period))
  {
    AddTimerCalls(w, id, start, period);
    StaysBalanced(w, AddTimer(w, id, start, period), Overdue(id, Rec(start, period, start, Held), ClockOf(w)));
  }

  lemma EventBalance(w: World, e: Entry)
    requires Inv(w, {}, multiset{}) && Earliest(w.q, e) && Balanced(w)
    ensures Balanced(Event(w, e))
  {
    EventCalls(w, e);
    StaysBalanced(w, Event(w, e), Flushing(w, e.ref, Clock(e.priority, w.ws[0].tick)));
  }

  ghost function Do(s: State, a: Action): (t: State)
    requires Good(s) && Enabled(s, a)
    ensures Good(t) && t.now >= s.now && t.w.ws[0].tick == s.w.ws[0].tick
    ensures forall id | id in s.w.recs && s.w.recs[id].phase.Stopped? :: id in t.w.recs && t.w.recs[id] == s.w.recs[id]
    ensures Carried(s.w.recs, [a], t.w.recs)
  {
    match a
    case Arm(id, start, period) =>
      AddTimerKeeps(s.w, id, start, period);
      AddTimerCalls(s.w, id, start, period);
      AddTimerBalance(s.w, id, start, period);
      s.(w := AddTimer(s.w, id, start, period))
    case Cancel(id) =>
      StopKeeps(s.w, id);
      s.(w := Stop(s.w, id).0)
    case Elapse(now) => s.(now := now)
    case Expire(e) =>
      EventKeeps(s.w, e);
      EventBalance(s.w, e);
      s.(w := Event(s.w, e))
  }

  /** What an action calls, in this order and after everything that was called before. */
  lemma DoCalls(s: State, a: Action)
    requires Good(s) && Enabled(s, a)
    ensures Adds(s.w, Do(s, a).w, NewCalls(s, a))
  {
    match a
    case Arm(id, start, period) => AddTimerCalls(s.w, id, start, period);
    case Cancel(id) => StopKeeps(s.w, id);
    case Elapse(now) =>
    case Expire(e) => EventCalls(s.w, e);
  }

  ghost predicate StepTo(s: State, a: Action, t: State) {
    Good(s) && Enabled(s, a) && Do(s, a) == t
  }

  ghost predicate Runs(s: State, actions: seq<Action>, t: State) {
    Leads(StepTo, s, actions, t)
  }

  function Initial(tick: int, size: nat, start: int): State {
    State(World([NewWheel(tick, size, start)], multiset{}, map[], multiset{}, []), start)
  }

  lemma InitialGood(tick: int, size: nat, start: int)
    requires tick >= 1 && size >= 2 && start >= 0
    ensures Good(Initial(tick, size, start))
  {
    TruncateBounds(start, tick);
    var w := Initial(tick, size, start).w;
    assert Tower(w.ws);
    forall r: Ref ensures At(w.ws, 0, r) == EMPTY {}
  }

  lemma RunsKeep(s: State, actions: seq<Action>, t: State)
    requires Good(s) && Runs(s, actions, t)
    ensures Good(t) && t.now >= s.now && t.w.ws[0].tick == s.w.ws[0].tick
    ensures forall id | id in s.w.recs && s.w.recs[id].phase.Stopped? :: id in t.w.recs && t.w.recs[id] == s.w.recs[id]
    ensures Carried(s.w.recs, actions, t.w.recs)
  {
    var inv := (u: State) => Later(s, u);
    Keeps(StepTo, inv, s, actions, t);
    RunsCarry(s, actions, t);
  }

  /** Time goes on at the same tick, and stopped timers stay as they are. */
  ghost predicate Later(s: State, u: State) {
    Good(s) && Good(u) && u.now >= s.now && u.w.ws[0].tick == s.w.ws[0].tick &&
    forall id | id in s.w.recs && s.w.recs[id].phase.Stopped? :: id in u.w.recs && u.w.recs[id] == s.w.recs[id]
  }

  lemma FirstStep(s: State, actions: seq<Action>, t: State) returns (m: State)
    requires Runs(s, actions, t) && actions != []
    ensures Carried(s.w.recs, [actions[0]], m.w.recs) && Runs(m, actions[1..], t)
  {
    m :| StepTo(s, actions[0], m) && Leads(StepTo, m, actions[1..], t);
  }

  lemma {:induction false} RunsCarry(s: State, actions: seq<Action>, t: State)
    requires Runs(s, actions, t)
    ensures Carried(s.w.recs, actions, t.w.recs)
    decreases |actions|
  {
    if actions != [] {
      var m := FirstStep(s, actions, t);
      RunsCarry(m, actions[1..], t);
      CarriedChain(s.w.recs, m.w.recs, actions, t.w.recs);
    }
  }

  lemma RunsOneMore(s: State, actions: seq<Action>, t: State, a: Action)
    requires Good(t) && Runs(s, actions, t) && Enabled(t, a)
    ensures Runs(s, actions + [a], Do(t, a))
  {
    Snoc(StepTo, s, actions, t, a, Do(t, a));
  }

  ghost function DueNow(w: World): set<Entry>
    requires Tower(w.ws)
  {
    set e | e in w.q && e.priority <= w.ws[0].currentTime
  }

  /** Bucket events at one instant run out, and otherwise the base clock moves on. */
  lemma EventDecreases(w: World, e: Entry)
    requires Inv(w, {}, multiset{}) && Earliest(w.q, e)
    ensures var v := Event(w, e);
      && Tower(v.ws)
      && (v.ws[0].currentTime > w.ws[0].currentTime
          || (v.ws[0].currentTime == w.ws[0].currentTime && |DueNow(v)| < |DueNow(w)|))
  {
    EventKeeps(w, e);
    var v := Event(w, e);
    if e.priority == w.ws[0].currentTime {
      QueuedBucket(w, multiset{}, e);
      assert (w.q + multiset{})[e] == w.q[e];
      assert DueNow(v) <= DueNow(w) - {e} by {
        forall x | x in DueNow(v) ensures x in DueNow(w) && x != e { assert v.q[x] == (w.q - multiset{e})[x]; }
      }
      SmallerSet(DueNow(v), DueNow(w), e);
    }
  }

  lemma SmallerSet<T>(a: set<T>, b: set<T>, x: T)
    requires x in b && a <= b - {x}
    ensures |a| < |b|
  {
    Subset(a, b - {x});
  }

  lemma {:induction false} Subset<T>(a: set<T>, b: set<T>)
    requires a <= b
    ensures |a| <= |b|
    decreases a
  {
    if a != {} {
      var x :| x in a;
      Subset(a - {x}, b - {x});
    }
  }

  ghost predicate Settled(s: State) {
    forall e | e in s.w.q :: e.priority > s.now
  }

  /** How often a timer has called back for a deadline. */
  ghost function Calls(w: World, id: nat, x: int): nat {
    multiset(w.ran)[Firing(id, x)]
  }

  /** The tower of wheels is a flat set of deadlines. In every reachable state no
      callback is early or runs twice, and once no queued bucket is due, the callbacks that have
      run are, for every timer that Stop was not called for, each deadline whose tick has come,
      once. For a one-shot timer that is its single deadline; for a periodic one
      start, start + period, and so on, none skipped and none repeated. A stopped timer
      has called back for its deadlines up to the one that was next when it was stopped. */
  lemma FlatDeadlines(tick: int, size: nat, start: int, actions: seq<Action>, t: State)
    requires tick >= 1 && size >= 2 && start >= 0
    requires Runs(Initial(tick, size, start), actions, t)
    ensures Carried(map[], actions, t.w.recs)
    ensures forall f | f in t.w.ran ::
      t.now > f.deadline - tick && Calls(t.w, f.id, f.deadline) == 1 && f.id in t.w.recs && IsDeadline(t.w.recs[f.id], f.deadline)
    ensures Settled(t) ==> forall id, x: int | id in t.w.recs && !t.w.recs[id].phase.Stopped? ::
      Calls(t.w, id, x) == if IsDeadline(t.w.recs[id], x) && Truncate(x, tick) <= t.now then 1 else 0
    ensures forall id, x: int | id in t.w.recs && t.w.recs[id].phase.Stopped? ::
      Cancel(id) in actions && Calls(t.w, id, x) == if IsDeadline(t.w.recs[id], x) && x < t.w.recs[id].expiration then 1 else 0
  {
    InitialGood(tick, size, start);
    RunsKeep(Initial(tick, size, start), actions, t);
    var w := t.w;
    forall f | f in w.ran
      ensures t.now > f.deadline - tick && Calls(t.w, f.id, f.deadline) == 1 && f.id in w.recs && IsDeadline(w.recs[f.id], f.deadline)
    {
      CallsMade(t, f.id, f.deadline);
    }
    forall id, x: int | id in w.recs && w.recs[id].phase.Stopped?
      ensures Cancel(id) in actions && Calls(w, id, x) == if IsDeadline(w.recs[id], x) && x < w.recs[id].expiration then 1 else 0
    {
      CallsMade(t, id, x);
    }
    if Settled(t) {
      forall id, x: int | id in w.recs && !w.recs[id].phase.Stopped?
        ensures Calls(w, id, x) == if IsDeadline(w.recs[id], x) && Truncate(x, tick) <= t.now then 1 else 0
      {
        SettledDeadline(t, id, x);
      }
    }
  }

  lemma CallsMade(t: State, id: nat, x: int)
    requires Good(t)
    ensures Calls(t.w, id, x) == if id in t.w.recs && HasBegun(t.w.recs[id], x) then 1 else 0
    ensures Firing(id, x) in t.w.ran <==> Calls(t.w, id, x) > 0
    ensures Firing(id, x) in t.w.ran ==> ClockOf(t.w).Over(x)
  {
    var f := Firing(id, x);
    assert t.w.begun[f] == if f.id in t.w.recs && HasBegun(t.w.recs[f.id], f.deadline) then 1 else 0;
    assert f in t.w.ran <==> f in multiset(t.w.ran);
  }

  lemma SettledDeadline(t: State, id: nat, x: int)
    requires Good(t) && Settled(t) && id in t.w.recs && !t.w.recs[id].phase.Stopped?
    ensures Calls(t.w, id, x) == if IsDeadline(t.w.recs[id], x) && Truncate(x, t.w.ws[0].tick) <= t.now then 1 else 0
  {
    var w, rec, tick := t.w, t.w.recs[id], t.w.ws[0].tick;
    CallsMade(t, id, x);
    if HasBegun(rec, x) {
      TruncateBelow(x, w.ws[0].currentTime, tick);
    } else if IsDeadline(rec, x) && rec.phase.InBucket? {
      var r := rec.phase.ref;
      assert InPlace(w.ws, w.recs, r, id) && BucketOk(w.ws, r);
      var e := At(w.ws, 0, r).expiration;
      LiveIsQueued(w, r);
      ClockLag(w.ws, r.level);
      SumOfMultiples(e, w.ws[r.level].tick, tick);
      TruncateMonotone(e, x, tick);
      TruncateUnique(e, e, tick);
    }
  }

  /** A deadline below the next tick rounds down to the base clock or earlier. */
  lemma TruncateBelow(x: int, base: int, tick: int)
    requires tick > 0 && base >= 0 && base % tick == 0 && x < base + tick
    ensures Truncate(x, tick) <= base
  {
    if x >= 0 {
      TruncateBounds(x, tick);
      if base < Truncate(x, tick) { NextMultiple(base, Truncate(x, tick), tick); }
    } else {
      TruncateBounds(-x, tick);
    }
  }

  /** After a Stop that returned true, the timer's callback never runs again. */
  lemma StoppedForGood(s: State, id: nat, actions: seq<Action>, t: State)
    requires Good(s) && id in s.w.recs && s.w.recs[id].phase.InBucket?
    requires Runs(Do(s, Cancel(id)), actions, t)
    ensures forall x: int :: Calls(t.w, id, x) == Calls(s.w, id, x)
  {
    StopKeeps(s.w, id);
    var c := Do(s, Cancel(id));
    RunsKeep(c, actions, t);
    forall x: int ensures Calls(t.w, id, x) == Calls(s.w, id, x) {
      CallsMade(c, id, x);
      CallsMade(t, id, x);
    }
  }

  /** All timers of a bucket share the bucket's virtual ID, and the bucket is in the
      queue once, under that ID's time and no other. */
  lemma BucketAgreement(w: World, r: Ref, id: nat)
    requires Inv(w, {}, multiset{}) && id in At(w.ws, 0, r).timers
    ensures ValidRef(w.ws, 0, r) && id in w.recs && w.ws[r.level].tick > 0
    ensures var wheel, b := w.ws[r.level], At(w.ws, 0, r);
      && b.expiration == (w.recs[id].expiration / wheel.tick) * wheel.tick
      && wheel.currentTime <= b.expiration < wheel.currentTime + wheel.Interval()
      && forall p: int :: w.q[Entry(p, r)] == if p == b.expiration then 1 else 0
  {
    assert InPlace(w.ws, w.recs, r, id) && BucketOk(w.ws, r);
    ClockLag(w.ws, r.level);
    var tick, b := w.ws[r.level].tick, At(w.ws, 0, r);
    TruncateUnique(w.recs[id].expiration, b.expiration, tick);
    TruncateBounds(w.recs[id].expiration, tick);
    forall p: int ensures w.q[Entry(p, r)] == if p == b.expiration then 1 else 0 {
      assert (w.q + multiset{})[Entry(p, r)] == if Live(w.ws, Entry(p, r)) then 1 else 0;
    }
  }

  // ----- 64-bit arithmetic

  const INT64_LIMIT := 0x8000_0000_0000_0000

  /** Every sum and product `add` computes on its way up fits an int64. */
  predicate InsertFits(ws: seq<Wheel>, expiration: int)
    requires Tower(ws)
    decreases expiration - ws[0].tick
  {
    var w := ws[0];
    && w.currentTime + w.tick < INT64_LIMIT
    && if expiration < w.currentTime + w.tick then true
       else if expiration < w.currentTime + w.Interval() then w.currentTime + w.Interval() < INT64_LIMIT
       else
         (IntervalGrows(w);
          w.currentTime + w.Interval() < INT64_LIMIT && InsertFits(Above(ws), expiration))
  }

  /** With expiration * wheelSize inside the range, only the root itself has to fit:
      no overflow wheel that `add` visits or creates overflows. */
  lemma {:induction false} NoOverflow(ws: seq<Wheel>, expiration: int)
    requires Tower(ws) && expiration * ws[0].size < INT64_LIMIT
    requires ws[0].currentTime + ws[0].Interval() < INT64_LIMIT
    ensures InsertFits(ws, expiration)
    decreases expiration - ws[0].tick
  {
    var w := ws[0];
    IntervalGrows(w);
    if expiration >= w.currentTime + w.Interval() {
      var hi := Above(ws)[0];
      TruncateBounds(w.currentTime, w.Interval());
      assert hi.size == w.size && hi.tick == w.Interval() && 0 <= hi.currentTime && hi.currentTime + hi.tick <= expiration;
      TurnFits(hi.currentTime, hi.tick, w.size, expiration);
      NoOverflow(Above(ws), expiration);
    }
  }

  /** A wheel's turn, if the timer lies beyond its first tick. */
  lemma TurnFits(time: int, tick: int, size: int, expiration: int)
    requires 0 <= time && size >= 1 && time + tick <= expiration
    ensures time + tick * size <= expiration * size
  {
    MulLe(1, size, time);
    MulLe(time + tick, expiration, size);
    Distributed(time, tick, size);
  }

  lemma Distributed(x: int, y: int, m: int)
    ensures (x + y) * m == x * m + y * m
  {}
}
