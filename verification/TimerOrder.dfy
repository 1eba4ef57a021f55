/** The order in which the timing wheel calls one timer back. Events come in the order of their times, but
    the task of a periodic timer (ScheduleFunc) adds the timer again before it calls back, so when several
    deadlines are over at once the latest is called back first. */
module TimerOrder {
  import opened PriorityQueues
  import opened WheelSpec
  import opened TimerRuns
  import opened Transitions

  predicate Ascending(calls: seq<Firing>, id: nat) {
    forall i, j | 0 <= i < j < |calls| && calls[i].id == id && calls[j].id == id :: calls[i].deadline < calls[j].deadline
  }

  predicate Descending(calls: seq<Firing>, id: nat) {
    forall i, j | 0 <= i < j < |calls| && calls[i].id == id && calls[j].id == id :: calls[i].deadline > calls[j].deadline
  }

  /** Every call of the timer in a is for an earlier deadline than every one in b. */
  predicate Before(a: seq<Firing>, b: seq<Firing>, id: nat) {
    forall f, g | f in a && g in b && f.id == id && g.id == id :: f.deadline < g.deadline
  }

  predicate Silent(calls: seq<Firing>, id: nat) {
    forall f | f in calls :: f.id != id
  }

  lemma Joined(a: seq<Firing>, b: seq<Firing>, id: nat)
    ensures Ascending(a + b, id) <==> Ascending(a, id) && Ascending(b, id) && Before(a, b, id)
  {
    var c := a + b;
    if Ascending(c, id) {
      forall f, g | f in a && g in b && f.id == id && g.id == id ensures f.deadline < g.deadline {
        var i :| 0 <= i < |a| && a[i] == f;
        var j :| 0 <= j < |b| && b[j] == g;
        assert c[i] == f && c[|a| + j] == g;
      }
      forall i, j | 0 <= i < j < |a| && a[i].id == id && a[j].id == id ensures a[i].deadline < a[j].deadline {
        assert c[i] == a[i] && c[j] == a[j];
      }
      forall i, j | 0 <= i < j < |b| && b[i].id == id && b[j].id == id ensures b[i].deadline < b[j].deadline {
        assert c[|a| + i] == b[i] && c[|a| + j] == b[j];
      }
    }
    if Ascending(a, id) && Ascending(b, id) && Before(a, b, id) {
      forall i, j | 0 <= i < j < |c| && c[i].id == id && c[j].id == id ensures c[i].deadline < c[j].deadline {
        if i < |a| <= j { assert a[i] in a && b[j - |a|] in b; }
      }
    }
  }

  /** Silent calls on either side do not matter. */
  lemma Apart(a: seq<Firing>, b: seq<Firing>, id: nat)
    ensures Silent(a, id) && Descending(b, id) ==> Descending(a + b, id)
    ensures Silent(b, id) && Descending(a, id) ==> Descending(a + b, id)
    ensures Silent(a, id) ==> Ascending(a, id) && Before(a, b, id) && Before(b, a, id)
  {
    forall i | 0 <= i < |a| ensures a[i] in a {}
    forall i | 0 <= i < |b| ensures b[i] in b {}
  }

  // ----- one action

  /** A catch-up calls back latest deadline first: it is in order only if there is one at most. */
  lemma {:induction false} CatchUpShape(id: nat, deadline: int, period: nat, clock: Clock)
    ensures var c := CatchUp(id, deadline, period, clock);
      && (forall f | f in c :: f.id == id && deadline <= f.deadline && clock.Over(f.deadline))
      && Descending(c, id) && (Ascending(c, id) <==> !(period > 0 && clock.Over(deadline + period)))
      && (c != [] <==> clock.Over(deadline))
    decreases clock.time + clock.tick - deadline
  {
    if clock.Over(deadline) && period > 0 {
      CatchUpShape(id, deadline + period, period, clock);
      var later, f := CatchUp(id, deadline + period, period, clock), Firing(id, deadline);
      CatchUpLast(later, f);
      if later != [] { assert later[0] in later && f in [f]; }
      Joined(later, [f], id);
    }
  }

  lemma CatchUpLast(later: seq<Firing>, f: Firing)
    requires Descending(later, f.id) && forall g | g in later :: g.deadline > f.deadline
    ensures Descending(later + [f], f.id)
  {
    forall i | 0 <= i < |later| ensures later[i] in later {}
  }

  lemma {:induction false} ReinsertedShape(recs: map<nat, Rec>, ts: seq<nat>, clock: Clock, id: nat)
    requires NoDup(ts) && forall x | x in ts :: x in recs
    ensures var c := Reinserted(recs, ts, clock);
      && (id !in ts ==> Silent(c, id)) && Descending(c, id)
      && (Ascending(c, id) <==> !(id in ts && recs[id].period > 0 && clock.Over(recs[id].expiration + recs[id].period)))
      && (forall f | f in c && f.id == id :: id in ts && recs[id].expiration <= f.deadline)
    decreases |ts|
  {
    if ts != [] {
      var x, rest := ts[0], ts[1..];
      var a, b := Overdue(x, recs[x], clock), Reinserted(recs, rest, clock);
      CatchUpShape(x, recs[x].expiration, recs[x].period, clock);
      NoDupTail(ts);
      ReinsertedShape(recs, rest, clock, id);
      Joined(a, b, id);
      Apart(a, b, id);
      Apart(b, a, id);
    }
  }

  /** The action has two or more deadlines of the timer to catch up with. */
  ghost predicate Behind(s: State, a: Action, id: nat)
    requires Good(s)
  {
    match a
    case Arm(x, start, period) => x == id && period > 0 && ClockOf(s.w).Over(start + period)
    case Expire(e) =>
      id in At(s.w.ws, 0, e.ref).timers && id in s.w.recs && s.w.recs[id].period > 0 &&
      Clock(e.priority, s.w.ws[0].tick).Over(s.w.recs[id].expiration + s.w.recs[id].period)
    case _ => false
  }

  /** The calls of one action come latest deadline first, and all after those of earlier deadlines. */
  lemma NewCallsShape(s: State, a: Action, id: nat)
    requires Good(s) && Enabled(s, a)
    ensures var c := NewCalls(s, a);
      Descending(c, id) && (Ascending(c, id) <==> !Behind(s, a, id)) && Before(s.w.ran, c, id)
  {
    match a
    case Arm(x, start, period) =>
      CatchUpShape(x, start, period, ClockOf(s.w));
      forall f | f in s.w.ran ensures f.id != x { CallsMade(s, f.id, f.deadline); }
    case Expire(e) => ExpireShape(s, e, id);
    case _ =>
  }

  lemma ExpireShape(s: State, e: Entry, id: nat)
    requires Good(s) && Enabled(s, Expire(e))
    ensures var c := NewCalls(s, Expire(e));
      Descending(c, id) && (Ascending(c, id) <==> !Behind(s, Expire(e), id)) && Before(s.w.ran, c, id)
  {
    var ts, clock := At(s.w.ws, 0, e.ref).timers, Clock(e.priority, s.w.ws[0].tick);
    EventCalls(s.w, e);
    assert NoDup(ts);
    ReinsertedShape(s.w.recs, ts, clock, id);
    forall f, g | f in s.w.ran && g in NewCalls(s, Expire(e)) && f.id == id && g.id == id ensures f.deadline < g.deadline {
      CallsMade(s, id, f.deadline);
    }
  }

  lemma StepOrder(s: State, a: Action, id: nat)
    requires Good(s) && Enabled(s, a)
    ensures Ascending(Do(s, a).w.ran, id) <==> Ascending(s.w.ran, id) && !Behind(s, a, id)
  {
    DoCalls(s, a);
    NewCallsShape(s, a, id);
    Joined(s.w.ran, NewCalls(s, a), id);
  }

  // ----- whole runs

  /** No action of the run finds the timer two deadlines behind. */
  ghost predicate NeverBehind(s: State, actions: seq<Action>, id: nat)
    decreases |actions|
  {
    actions != [] ==>
      Good(s) && Enabled(s, actions[0]) && !Behind(s, actions[0], id) && NeverBehind(Do(s, actions[0]), actions[1..], id)
  }

  /** A timer's callbacks come in the order of their deadlines exactly if it is never two behind. */
  lemma {:induction false} AscendingIff(s: State, actions: seq<Action>, t: State, id: nat)
    requires Good(s) && Runs(s, actions, t)
    ensures Ascending(t.w.ran, id) <==> Ascending(s.w.ran, id) && NeverBehind(s, actions, id)
    decreases |actions|
  {
    if actions != [] {
      var m :| StepTo(s, actions[0], m) && Leads(StepTo, m, actions[1..], t);
      StepOrder(s, actions[0], id);
      AscendingIff(m, actions[1..], t, id);
    }
  }

  /** The timer is made for a time that has not passed, as a schedule does. */
  ghost predicate Prompt(s: State, actions: seq<Action>, id: nat)
    decreases |actions|
  {
    actions != [] ==>
      Good(s) && Enabled(s, actions[0])
      && (actions[0].Arm? && actions[0].id == id ==> actions[0].start >= s.now)
      && Prompt(Do(s, actions[0]), actions[1..], id)
  }

  /** With a period of at least a tick a timer is never two behind. */
  lemma TickApart(s: State, a: Action, id: nat)
    requires Good(s) && Enabled(s, a) && (a.Arm? && a.id == id ==> a.start >= s.now)
    requires var t := Do(s, a); id in t.w.recs && (t.w.recs[id].period == 0 || t.w.recs[id].period >= s.w.ws[0].tick)
    ensures !Behind(s, a, id)
  {
    if a.Expire? && id in At(s.w.ws, 0, a.e.ref).timers {
      QueuedBucket(s.w, multiset{}, a.e);
      assert InPlace(s.w.ws, s.w.recs, a.e.ref, id);
    }
  }

  lemma {:induction false} TickPeriod(s: State, actions: seq<Action>, t: State, id: nat)
    requires Good(s) && Runs(s, actions, t) && Prompt(s, actions, id)
    requires id in t.w.recs && (t.w.recs[id].period == 0 || t.w.recs[id].period >= s.w.ws[0].tick)
    ensures NeverBehind(s, actions, id)
    decreases |actions|
  {
    if actions != [] {
      var m :| StepTo(s, actions[0], m) && Leads(StepTo, m, actions[1..], t);
      TickPeriod(m, actions[1..], t, id);
      RunsKeep(m, actions[1..], t);
      if id in m.w.recs { TickApart(s, actions[0], id); } else { Unknown(s, actions[0], id); }
    }
  }

  lemma Unknown(s: State, a: Action, id: nat)
    requires Good(s) && Enabled(s, a) && id !in Do(s, a).w.recs
    ensures !Behind(s, a, id)
  {}

  /** A shorter period: the first two deadlines are over at once, and the later one is called back first. */
  lemma LatestFirst(tick: int, size: nat, period: nat)
    requires size >= 2 && 0 < period < tick
    ensures var s, a := Initial(tick, size, 0), Arm(0, 0, period);
      && Good(s) && Enabled(s, a) && Runs(s, [a], Do(s, a)) && Prompt(s, [a], 0)
      && 0 in Do(s, a).w.recs && Do(s, a).w.recs[0].period == period && !Ascending(Do(s, a).w.ran, 0)
  {
    InitialGood(tick, size, 0);
    var s, a := Initial(tick, size, 0), Arm(0, 0, period);
    StepOrder(s, a, 0);
    assert Leads(StepTo, Do(s, a), [a][1..], Do(s, a));
  }

  /** On wheels of this tick every timer of this period that is made in time is called back in the order of
      its deadlines, in every run, exactly if it is one-shot or the period is at least a tick. */
  lemma InOrderIff(tick: int, size: nat, period: nat)
    requires tick >= 1 && size >= 2
    ensures (forall start, actions, t, id | InTime(tick, size, period, start, actions, t, id) :: Ascending(t.w.ran, id))
            <==> period == 0 || period >= tick
  {
    if period == 0 || period >= tick {
      forall start, actions, t, id | InTime(tick, size, period, start, actions, t, id) ensures Ascending(t.w.ran, id) {
        InitialGood(tick, size, start);
        TickPeriod(Initial(tick, size, start), actions, t, id);
        AscendingIff(Initial(tick, size, start), actions, t, id);
      }
    } else {
      LatestFirst(tick, size, period);
      var s, a := Initial(tick, size, 0), Arm(0, 0, period);
      assert InTime(tick, size, period, 0, [a], Do(s, a), 0);
    }
  }

  /** A run in which the timer has that period and is made in time. */
  ghost predicate InTime(tick: int, size: nat, period: nat, start: int, actions: seq<Action>, t: State, id: nat) {
    start >= 0 && Runs(Initial(tick, size, start), actions, t) && Prompt(Initial(tick, size, start), actions, id)
    && id in t.w.recs && t.w.recs[id].period == period
  }

  /** A timer every 4 ms on a tick of 10 ms, made at time 0 for 4: 8 is called back before 4. */
  lemma EightBeforeFour(size: nat)
    requires size >= 2
    ensures var s, a := Initial(10, size, 0), Arm(0, 4, 4);
      Good(s) && Enabled(s, a) && Do(s, a).w.ran == [Firing(0, 8), Firing(0, 4)]
  {
    InitialGood(10, size, 0);
    var s, a := Initial(10, size, 0), Arm(0, 4, 4);
    assert ClockOf(s.w) == Clock(0, 10);
    DoCalls(s, a);
    EveryFour();
    assert NewCalls(s, a) == [Firing(0, 8), Firing(0, 4)];
  }

  lemma EveryFour()
    ensures Overdue(0, Rec(4, 4, 4, Held), Clock(0, 10)) == [Firing(0, 8), Firing(0, 4)]
  {
    assert CatchUp(0, 12, 4, Clock(0, 10)) == [];
    assert CatchUp(0, 8, 4, Clock(0, 10)) == [Firing(0, 8)];
  }
}
