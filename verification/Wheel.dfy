/** Small facts about rounding a clock down to a multiple of a tick. */
module Ticks {
  /** Go's `%`: the remainder takes the sign of the dividend. */
  function Rem(x: int, m: int): int
    requires m > 0
  {
    if x >= 0 then x % m else -((-x) % m)
  }

  function Truncate(x: int, m: int): int {
    if m <= 0 then x else x - Rem(x, m)
  }

  lemma Multiple(v: int, m: int)
    requires m > 0
    ensures (v * m) % m == 0 && (v * m) / m == v
  {
    var q := (v * m) / m;
    Quotient(v * m, m);
    assert (v - q) * m == (v * m) % m;
    if v < q { MulLe(v - q, -1, m); }
    if q < v { MulLe(1, v - q, m); }
  }

  lemma Quotient(x: int, m: int)
    requires m > 0
    ensures x == (x / m) * m + x % m
  {}

  lemma MulLe(a: int, b: int, m: int)
    requires a <= b && m >= 0
    ensures a * m <= b * m
  {}

  /** Two multiples of m less than m apart, in order, are equal. */
  lemma SameMultiple(x: int, y: int, m: int)
    requires m > 0 && x % m == 0 && y % m == 0 && x <= y < x + m
    ensures x == y
  {
    Quotient(x, m);
    Quotient(y, m);
    if x / m < y / m {
      MulLe(x / m + 1, y / m, m);
    } else {
      MulLe(y / m, x / m, m);
    }
  }

  /** A multiple of m strictly above another is at least m above it. */
  lemma NextMultiple(x: int, y: int, m: int)
    requires m > 0 && x % m == 0 && y % m == 0 && x < y
    ensures x + m <= y
  {
    if y < x + m { SameMultiple(x, y, m); }
  }

  lemma TruncateBounds(x: int, m: int)
    requires m > 0 && x >= 0
    ensures 0 <= Truncate(x, m) <= x < Truncate(x, m) + m
    ensures Truncate(x, m) % m == 0
    ensures Truncate(x, m) == (x / m) * m
  {
    Quotient(x, m);
    Multiple(x / m, m);
    assert x / m >= 0;
  }

  lemma TruncateUnique(x: int, y: int, m: int)
    requires m > 0 && x >= 0 && y % m == 0 && y <= x < y + m
    ensures y == Truncate(x, m)
  {
    TruncateBounds(x, m);
    var t := Truncate(x, m);
    if t <= y { SameMultiple(t, y, m); } else { SameMultiple(y, t, m); }
  }

  lemma TruncateMonotone(x: int, y: int, m: int)
    requires m > 0 && 0 <= x <= y
    ensures Truncate(x, m) <= Truncate(y, m)
  {
    TruncateBounds(x, m);
    TruncateBounds(y, m);
    if Truncate(y, m) < Truncate(x, m) { NextMultiple(Truncate(y, m), Truncate(x, m), m); }
  }

  /** A multiple of m * n is a multiple of m. */
  lemma Coarser(x: int, m: int, n: int)
    requires m > 0 && n > 0 && m * n > 0 && x % (m * n) == 0
    ensures x % m == 0
  {
    Quotient(x, m * n);
    var v := x / (m * n);
    assert x == (v * n) * m by { assert v * (m * n) == (v * n) * m; }
    Multiple(v * n, m);
  }

  /** A window of `size` consecutive virtual IDs never uses one slot twice. */
  lemma SlotUnique(u: int, v: int, c: int, size: int)
    requires size > 0 && c <= u < c + size && c <= v < c + size && u % size == v % size
    ensures u == v
  {
    if u < v { SlotStep(u, v, size); } else if v < u { SlotStep(v, u, size); }
  }

  lemma SlotStep(u: int, v: int, size: int)
    requires size > 0 && u < v < u + size
    ensures u % size != v % size
  {
    if u % size == v % size {
      Quotient(u, size);
      Quotient(v, size);
      var d := v / size - u / size;
      assert v - u == d * size;
      if d <= 0 { MulLe(d, 0, size); } else { MulLe(1, d, size); }
    }
  }
}

/** extend/time_wheel on values: what `add` and `advanceClock` compute. */
module WheelSpec {
  import opened Wrappers
  import opened Ticks
  import opened PriorityQueues

  /** The timers of a bucket are named by the identity of the Timer object. */
  datatype Bucket = Bucket(expiration: int, timers: seq<nat>)

  datatype Wheel = Wheel(tick: int, size: int, currentTime: int, buckets: seq<Bucket>) {
    function Interval(): int { tick * size }
  }

  const EMPTY := Bucket(-1, [])

  function NewWheel(tick: int, size: nat, start: int): Wheel {
    Wheel(tick, size, Truncate(start, tick), seq(size, _ => EMPTY))
  }

  predicate WheelOk(w: Wheel) {
    && w.tick >= 1 && w.size >= 2 && |w.buckets| == w.size
    && w.currentTime >= 0 && w.currentTime % w.tick == 0
  }

  predicate Linked(lo: Wheel, hi: Wheel) {
    && hi.size == lo.size && hi.tick == lo.Interval()
    && hi.currentTime == Truncate(lo.currentTime, hi.tick)
  }

  /** A tower of wheels: each overflow wheel ticks once per turn of the wheel
      below it, and its clock is that wheel's clock rounded down. */
  predicate Tower(ws: seq<Wheel>) {
    && |ws| > 0 && WheelOk(ws[0])
    && (|ws| > 1 ==> Linked(ws[0], ws[1]) && Tower(ws[1..]))
  }

  predicate ValidRef(ws: seq<Wheel>, base: nat, r: Ref) {
    base <= r.level < base + |ws| && r.slot < |ws[r.level - base].buckets|
  }

  function At(ws: seq<Wheel>, base: nat, r: Ref): Bucket {
    if ValidRef(ws, base, r) then ws[r.level - base].buckets[r.slot] else EMPTY
  }

  /** Same wheels, possibly with more overflow wheels on top; buckets may differ. */
  predicate Extends(ws: seq<Wheel>, more: seq<Wheel>) {
    |ws| <= |more| && forall k | 0 <= k < |ws| :: more[k] == ws[k].(buckets := more[k].buckets) && |more[k].buckets| == |ws[k].buckets|
  }

  datatype Insertion = Insertion(ws: seq<Wheel>, ref: Option<Ref>, offers: multiset<Entry>)

  lemma IntervalGrows(w: Wheel)
    requires WheelOk(w)
    ensures w.tick < w.Interval() && w.Interval() >= 2 * w.tick
  {
    MulLe(2, w.size, w.tick);
  }

  lemma NewWheelLinked(w: Wheel)
    requires WheelOk(w)
    ensures WheelOk(NewWheel(w.Interval(), w.size, w.currentTime))
    ensures Linked(w, NewWheel(w.Interval(), w.size, w.currentTime))
  {
    IntervalGrows(w);
    TruncateBounds(w.currentTime, w.Interval());
  }

  function Above(ws: seq<Wheel>): (above: seq<Wheel>)
    requires Tower(ws)
    ensures Tower(above) && Linked(ws[0], above[0]) && Tower([ws[0]] + above)
  {
    if |ws| == 1 then
      NewWheelLinked(ws[0]);
      var hi := NewWheel(ws[0].Interval(), ws[0].size, ws[0].currentTime);
      assert ([ws[0]] + [hi])[1..] == [hi];
      [hi]
    else
      assert [ws[0]] + ws[1..] == ws;
      ws[1..]
  }

  /** `add`: ref is None exactly when the timer has already expired. */
  function Insert(ws: seq<Wheel>, base: nat, id: nat, expiration: int): Insertion
    requires Tower(ws)
    decreases expiration - ws[0].tick
  {
    var w := ws[0];
    if expiration < w.currentTime + w.tick then
      Insertion(ws, None, multiset{})
    else if expiration < w.currentTime + w.Interval() then
      var vid := expiration / w.tick;
      var slot := vid % w.size;
      var b := w.buckets[slot];
      var ref := Ref(base, slot);
      Insertion([w.(buckets := w.buckets[slot := Bucket(vid * w.tick, b.timers + [id])])] + ws[1..],
                Some(ref),
                if b.expiration != vid * w.tick then multiset{Entry(vid * w.tick, ref)} else multiset{})
    else
      IntervalGrows(w);
      var r := Insert(Above(ws), base + 1, id, expiration);
      Insertion([w] + r.ws, r.ref, r.offers)
  }

  /** `advanceClock`. */
  function Advance(ws: seq<Wheel>, expiration: int): seq<Wheel> {
    if ws == [] || expiration < ws[0].currentTime + ws[0].tick then ws
    else
      var now := Truncate(expiration, ws[0].tick);
      [ws[0].(currentTime := now)] + Advance(ws[1..], now)
  }

  // ----- clocks of a tower

  /** No wheel's clock is ahead of the base clock or a whole tick behind it. */
  lemma {:induction false} ClockLag(ws: seq<Wheel>, k: nat)
    requires Tower(ws) && k < |ws|
    ensures WheelOk(ws[k]) && ws[k].size == ws[0].size
    ensures ws[k].currentTime <= ws[0].currentTime < ws[k].currentTime + ws[k].tick
    ensures ws[k].tick % ws[0].tick == 0
  {
    if k == 0 {
      Multiple(1, ws[0].tick);
    } else {
      ClockLag(ws[1..], k - 1);
      var lo, hi, top := ws[0], ws[1], ws[k];
      assert top == ws[1..][k - 1];
      IntervalGrows(lo);
      TruncateBounds(lo.currentTime, hi.tick);
      Coarser(top.tick, lo.tick, lo.size);
      // both top clock and top tick are multiples of the base tick
      SumOfMultiples(top.currentTime, top.tick, lo.tick);
      if lo.currentTime >= top.currentTime + top.tick {
        // hi's clock is below the next top tick, a multiple of hi.tick
        SumOfMultiples(top.currentTime, top.tick, hi.tick);
        NextMultiple(hi.currentTime, top.currentTime + top.tick, hi.tick);
      }
    }
  }

  lemma SumOfMultiples(x: int, m: int, n: int)
    requires m > 0 && n > 0 && x % m == 0 && m % n == 0
    ensures (x + m) % n == 0 && x % n == 0
  {
    Quotient(x, m);
    Quotient(m, n);
    assert x == (x / m * (m / n)) * n;
    Multiple(x / m * (m / n), n);
    assert x + m == (x / m * (m / n) + m / n) * n;
    Multiple(x / m * (m / n) + m / n, n);
  }

  /** Every wheel's clock is the base clock rounded down to that wheel's tick. */
  lemma NestedClocks(ws: seq<Wheel>, k: nat)
    requires Tower(ws) && k < |ws|
    ensures ws[k].currentTime == Truncate(ws[0].currentTime, ws[k].tick)
  {
    ClockLag(ws, k);
    TruncateUnique(ws[0].currentTime, ws[k].currentTime, ws[k].tick);
  }

  /** `advanceClock` keeps the tower and only moves clocks. */
  lemma {:induction false} AdvanceKeeps(ws: seq<Wheel>, x: int)
    requires Tower(ws) && x >= ws[0].currentTime
    ensures var r := Advance(ws, x);
      && Tower(r) && |r| == |ws| && r[0].currentTime == Truncate(x, ws[0].tick)
      && forall k | 0 <= k < |ws| :: r[k] == ws[k].(currentTime := r[k].currentTime) && r[k].currentTime >= ws[k].currentTime
  {
    var w, r := ws[0], Advance(ws, x);
    TruncateBounds(x, w.tick);
    if x < w.currentTime + w.tick {
      TruncateUnique(x, w.currentTime, w.tick);
    } else {
      var now := Truncate(x, w.tick);
      NextMultipleOrSame(w.currentTime, x, w.tick);
      if |ws| > 1 {
        IntervalGrows(w);
        TruncateBounds(w.currentTime, ws[1].tick);
        AdvanceKeeps(ws[1..], now);
        assert r[1..] == Advance(ws[1..], now);
        forall k | 0 <= k < |ws|
          ensures r[k] == ws[k].(currentTime := r[k].currentTime) && r[k].currentTime >= ws[k].currentTime
        {
          if k > 0 { assert r[k] == r[1..][k - 1] && ws[k] == ws[1..][k - 1]; }
        }
      }
    }
  }

  lemma NextMultipleOrSame(c: int, x: int, m: int)
    requires m > 0 && 0 <= c <= x && c % m == 0
    ensures c <= Truncate(x, m)
  {
    TruncateMonotone(c, x, m);
    TruncateUnique(c, c, m);
  }

  // ----- what an insertion does

  /** The timer landed in bucket p, one tick or more ahead of that wheel's clock
      and inside its turn; nothing else moved; the bucket is offered to the queue
      exactly when its expiration changed. */
  ghost predicate PlacedAt(ws: seq<Wheel>, base: nat, id: nat, expiration: int, r: Insertion, p: Ref) {
    && ValidRef(r.ws, base, p)
    && var w, before, after := r.ws[p.level - base], At(ws, base, p), At(r.ws, base, p);
    && after.timers == before.timers + [id]
    && w.currentTime + w.tick <= after.expiration < w.currentTime + w.Interval()
    && after.expiration <= expiration < after.expiration + w.tick
    && after.expiration % w.tick == 0 && (after.expiration / w.tick) % w.size == p.slot
    && r.offers == (if before.expiration != after.expiration then multiset{Entry(after.expiration, p)} else multiset{})
    && forall x: Ref | x != p :: At(r.ws, base, x) == At(ws, base, x)
  }

  /** The overflow wheels never answer "already expired": `add` is None exactly
      on the guard of the wheel it was called on. */
  lemma {:induction false} InsertEffect(ws: seq<Wheel>, base: nat, id: nat, expiration: int)
    requires Tower(ws)
    ensures var r := Insert(ws, base, id, expiration);
      && Tower(r.ws) && Extends(ws, r.ws)
      && (r.ref.None? <==> expiration < ws[0].currentTime + ws[0].tick)
      && (r.ref.None? ==> r.ws == ws && r.offers == multiset{})
      && (r.ref.Some? ==> PlacedAt(ws, base, id, expiration, r, r.ref.value))
    decreases expiration - ws[0].tick
  {
    var w, r := ws[0], Insert(ws, base, id, expiration);
    if expiration < w.currentTime + w.tick {
    } else if expiration < w.currentTime + w.Interval() {
      PlacedHere(ws, base, id, expiration);
    } else {
      IntervalGrows(w);
      var above := Above(ws);
      TruncateBounds(w.currentTime, w.Interval());
      InsertEffect(above, base + 1, id, expiration);
      PlacedAbove(ws, base, id, expiration);
    }
  }

  lemma PlacedAbove(ws: seq<Wheel>, base: nat, id: nat, expiration: int)
    requires Tower(ws) && expiration >= ws[0].currentTime + ws[0].Interval() >= ws[0].currentTime + ws[0].tick
    requires var above := Above(ws); var up := Insert(above, base + 1, id, expiration);
      Tower(up.ws) && Extends(above, up.ws) && up.ref.Some? && PlacedAt(above, base + 1, id, expiration, up, up.ref.value)
    ensures var r := Insert(ws, base, id, expiration);
      && Tower(r.ws) && Extends(ws, r.ws)
      && r.ref.Some? && PlacedAt(ws, base, id, expiration, r, r.ref.value)
  {
    var w, r, above := ws[0], Insert(ws, base, id, expiration), Above(ws);
    var up := Insert(above, base + 1, id, expiration);
    assert r == Insertion([w] + up.ws, up.ref, up.offers);
    TowerCons(ws, up.ws);
    var p := r.ref.value;
    assert r.ws[p.level - base] == up.ws[p.level - base - 1];
    forall x: Ref
      ensures x.level != base ==> At(r.ws, base, x) == At(up.ws, base + 1, x) && At(ws, base, x) == At(above, base + 1, x)
      ensures x.level == base ==> At(r.ws, base, x) == At(ws, base, x)
    {
      AtCons(w, up.ws, base, x);
      AtAbove(ws, base, x);
    }
  }

  lemma TowerCons(ws: seq<Wheel>, up: seq<Wheel>)
    requires Tower(ws) && Tower(up) && Extends(Above(ws), up)
    ensures Tower([ws[0]] + up) && Extends(ws, [ws[0]] + up)
  {
    var above, r := Above(ws), [ws[0]] + up;
    assert r[1..] == up;
    assert up[0] == above[0].(buckets := up[0].buckets);
    forall k | 0 <= k < |ws|
      ensures r[k] == ws[k].(buckets := r[k].buckets) && |r[k].buckets| == |ws[k].buckets|
    {
      if k > 0 { assert r[k] == up[k - 1] && ws[k] == above[k - 1]; }
    }
  }

  lemma AtAbove(ws: seq<Wheel>, base: nat, x: Ref)
    requires Tower(ws)
    ensures x.level != base ==> At(ws, base, x) == At(Above(ws), base + 1, x)
    ensures x.level == base ==> At(ws, base, x) == (if x.slot < |ws[0].buckets| then ws[0].buckets[x.slot] else EMPTY)
  {
    AtCons(ws[0], ws[1..], base, x);
    assert [ws[0]] + ws[1..] == ws;
  }

  lemma AtCons(w: Wheel, rest: seq<Wheel>, base: nat, x: Ref)
    ensures x.level != base ==> At([w] + rest, base, x) == At(rest, base + 1, x)
    ensures x.level == base ==> At([w] + rest, base, x) == (if x.slot < |w.buckets| then w.buckets[x.slot] else EMPTY)
  {
    if base < x.level <= base + |rest| { assert ([w] + rest)[x.level - base] == rest[x.level - base - 1]; }
  }

  lemma InsertTower(ws: seq<Wheel>, base: nat, id: nat, expiration: int)
    requires Tower(ws)
    ensures var r := Insert(ws, base, id, expiration);
      && Tower(r.ws) && Extends(ws, r.ws)
      && (r.ref.None? ==> r.ws == ws && r.offers == multiset{} && expiration < ws[0].currentTime + ws[0].tick)
  {
    InsertEffect(ws, base, id, expiration);
  }

  lemma PlacedHere(ws: seq<Wheel>, base: nat, id: nat, expiration: int)
    requires Tower(ws)
    requires ws[0].currentTime + ws[0].tick <= expiration < ws[0].currentTime + ws[0].Interval()
    ensures var r := Insert(ws, base, id, expiration);
      && Tower(r.ws) && Extends(ws, r.ws)
      && r.ref.Some? && PlacedAt(ws, base, id, expiration, r, r.ref.value)
  {
    var w, r := ws[0], Insert(ws, base, id, expiration);
    var v := expiration / w.tick;
    TruncateBounds(expiration, w.tick);
    Multiple(v, w.tick);
    assert r.ws[1..] == ws[1..];
    SumOfMultiples(w.currentTime, w.tick, w.tick);
    if v * w.tick < w.currentTime + w.tick { NextMultiple(v * w.tick, w.currentTime + w.tick, w.tick); }
    var p := r.ref.value;
    forall x: Ref | x != p
      ensures At(r.ws, base, x) == At(ws, base, x)
    {
      if x.level > base && x.level < base + |ws| { assert r.ws[x.level - base] == ws[1..][x.level - base - 1]; }
    }
  }

  // ----- changing one bucket

  function SetBucket(ws: seq<Wheel>, r: Ref, b: Bucket): seq<Wheel>
    requires ValidRef(ws, 0, r)
  {
    ws[r.level := ws[r.level].(buckets := ws[r.level].buckets[r.slot := b])]
  }

  lemma {:induction false} TowerIgnoresBuckets(ws: seq<Wheel>, vs: seq<Wheel>)
    requires Tower(ws) && |ws| == |vs| && Extends(ws, vs)
    ensures Tower(vs)
  {
    if |ws| > 1 {
      forall k | 0 <= k < |ws[1..]|
        ensures vs[1..][k] == ws[1..][k].(buckets := vs[1..][k].buckets) && |vs[1..][k].buckets| == |ws[1..][k].buckets|
      {
        assert vs[1..][k] == vs[k + 1] && ws[1..][k] == ws[k + 1];
      }
      TowerIgnoresBuckets(ws[1..], vs[1..]);
    }
  }

  lemma SetBucketEffect(ws: seq<Wheel>, r: Ref, b: Bucket)
    requires Tower(ws) && ValidRef(ws, 0, r)
    ensures var vs := SetBucket(ws, r, b);
      && Tower(vs) && Extends(ws, vs) && |vs| == |ws|
      && forall x: Ref :: At(vs, 0, x) == if x == r then b else At(ws, 0, x)
  {
    TowerIgnoresBuckets(ws, SetBucket(ws, r, b));
  }
}
