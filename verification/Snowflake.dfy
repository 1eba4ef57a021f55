/** The bit operations of extend/snowflake/snowflake.go, on numbers below 2^63. */
module Bits {
  import opened Words
  import opened Radix

  function Or(a: nat, b: nat): nat
    decreases a + b
  {
    if a == 0 && b == 0 then 0
    else (if a % 2 == 1 || b % 2 == 1 then 1 else 0) + 2 * Or(a / 2, b / 2)
  }

  function And(a: nat, b: nat): nat
    decreases a + b
  {
    if a == 0 && b == 0 then 0
    else (if a % 2 == 1 && b % 2 == 1 then 1 else 0) + 2 * And(a / 2, b / 2)
  }

  function Shl(a: nat, k: nat): nat { a * Pow(2, k) }

  function Shr(a: nat, k: nat): nat
  {
    PowPositive(2, k);
    a / Pow(2, k)
  }

  /** -1 ^ (-1 << k): flipping every bit of x is -1 - x. */
  function Mask(k: nat): nat {
    PowPositive(2, k);
    -1 - (-1 * Pow(2, k))
  }

  lemma {:induction false} OrDisjoint(a: nat, b: nat, k: nat)
    requires b < Pow(2, k)
    ensures Or(Shl(a, k), b) == Shl(a, k) + b
    decreases k
  {
    if k == 0 {
      OrZero(a);
    } else {
      OrDisjoint(a, b / 2, k - 1);
      ShlStep(a, k);
    }
  }

  lemma OrZero(a: nat)
    ensures Or(a, 0) == a
  {}

  lemma {:induction false} AndMask(a: nat, k: nat)
    ensures And(a, Mask(k)) == a % Pow(2, k)
    decreases k
  {
    if k == 0 {
      AndZero(a);
    } else {
      AndMask(a / 2, k - 1);
      PowPositive(2, k - 1);
      AndOdd(a, Mask(k - 1));
      ModDouble(a, Pow(2, k - 1));
    }
  }

  lemma AndOdd(a: nat, m: nat)
    ensures And(a, 2 * m + 1) == a % 2 + 2 * And(a / 2, m)
  {}

  lemma ModDouble(a: nat, p: nat)
    requires p > 0
    ensures a % (2 * p) == 2 * (a / 2 % p) + a % 2
  {
    var h := a / 2;
    var q, r := h / p, h % p;
    assert h == q * p + r;
    Twice(q, p);
    DivModUnique(q, 2 * r + a % 2, 2 * p);
  }

  lemma AndZero(a: nat)
    ensures And(a, 0) == 0
  {}

  /** A mask moved left selects the same bits of a number moved right. */
  lemma {:induction false} AndShifted(a: nat, m: nat, k: nat)
    ensures And(a, Shl(m, k)) == Shl(And(Shr(a, k), m), k)
    decreases k
  {
    PowPositive(2, k);
    if k == 0 {
      assert Shr(a, 0) == a;
    } else {
      AndShifted(a / 2, m, k - 1);
      ShlStep(m, k);
      AndEven(a, Shl(m, k - 1));
      ShrStep(a, k);
      ShlStep(And(Shr(a, k), m), k);
    }
  }

  lemma ShlStep(x: nat, k: nat)
    requires k > 0
    ensures Shl(x, k) == 2 * Shl(x, k - 1)
  {
    Twice(x, Pow(2, k - 1));
  }

  lemma ShrStep(a: nat, k: nat)
    requires k > 0
    ensures Shr(a, k) == Shr(a / 2, k - 1)
  {
    PowPositive(2, k - 1);
    HalveFirst(a, Pow(2, k - 1));
  }

  lemma Twice(x: nat, p: nat)
    ensures x * (2 * p) == 2 * (x * p)
  {}

  lemma AndEven(a: nat, m: nat)
    ensures And(a, 2 * m) == 2 * And(a / 2, m)
  {}

  lemma HalveFirst(a: nat, p: nat)
    requires p > 0
    ensures a / (2 * p) == a / 2 / p
  {
    var h := a / 2;
    var q, r := h / p, h % p;
    assert h == q * p + r;
    Twice(q, p);
    DivModUnique(q, 2 * r + a % 2, 2 * p);
  }

  lemma PowAdd(m: nat, n: nat)
    ensures Pow(2, m + n) == Pow(2, m) * Pow(2, n)
    decreases m
  {
    if m > 0 {
      PowAdd(m - 1, n);
      assert 2 * (Pow(2, m - 1) * Pow(2, n)) == Pow(2, m) * Pow(2, n);
    }
  }
}

/** extend/snowflake/snowflake.go: NewNode, Generate and the fields of an ID. */
module Snowflake {
  import opened Words
  import opened Radix
  import opened Bits

  const Epoch: nat := 1609430400000

  const CLOCK_LIMIT: nat := 2199023255552  // 2^41

  /** The package variables NodeBits and StepBits. */
  datatype Layout = Layout(nodeBits: nat, stepBits: nat) {
    predicate Fits() { nodeBits + stepBits <= 22 }
  }

  datatype State = State(time: nat, node: nat, step: nat)

  predicate ValidState(l: Layout, s: State) {
    s.node < Pow(2, l.nodeBits) && s.step < Pow(2, l.stepBits)
  }

  function Id(l: Layout, s: State): nat {
    Or(Or(Shl(s.time, l.nodeBits + l.stepBits), Shl(s.node, l.stepBits)), s.step)
  }

  function TimeOf(l: Layout, id: nat): nat {
    Shr(id, l.nodeBits + l.stepBits) + Epoch
  }

  function NodeOf(l: Layout, id: nat): nat {
    Shr(And(id, Shl(Mask(l.nodeBits), l.stepBits)), l.stepBits)
  }

  function StepOf(l: Layout, id: nat): nat {
    And(id, Mask(l.stepBits))
  }

  lemma IdSum(l: Layout, s: State)
    requires ValidState(l, s)
    ensures Id(l, s) == High(l, s) * Pow(2, l.stepBits) + s.step
  {
    var n, p := Pow(2, l.nodeBits), Pow(2, l.stepBits);
    var nodeField := Shl(s.node, l.stepBits);
    assert nodeField < Pow(2, l.nodeBits + l.stepBits) by {
      PowAdd(l.nodeBits, l.stepBits);
      Lexicographic(s.node, n, 0, 0, p);
    }
    OrDisjoint(s.time, nodeField, l.nodeBits + l.stepBits);
    assert Or(Shl(s.time, l.nodeBits + l.stepBits), nodeField) == Shl(High(l, s), l.stepBits) by {
      PowAdd(l.nodeBits, l.stepBits);
      Nest(s.time, s.node, n, p);
    }
    OrDisjoint(High(l, s), s.step, l.stepBits);
  }

  /** Everything above the step. */
  function High(l: Layout, s: State): nat {
    s.time * Pow(2, l.nodeBits) + s.node
  }

  lemma Lexicographic(x: nat, y: nat, a: nat, b: nat, p: nat)
    requires x < y && a < p
    ensures x * p + a < y * p + b
  {
    MulMono(x + 1, y, p);
  }

  lemma Nest(x: nat, a: nat, n: nat, p: nat)
    ensures x * (n * p) + a * p == (x * n + a) * p
  {}

  /** Every field comes back from the ID it was packed into. */
  lemma Unpack(l: Layout, s: State)
    requires ValidState(l, s)
    ensures TimeOf(l, Id(l, s)) == s.time + Epoch
    ensures NodeOf(l, Id(l, s)) == s.node && StepOf(l, Id(l, s)) == s.step
  {
    IdSum(l, s);
    var id := Id(l, s);
    DivModUnique(High(l, s), s.step, Pow(2, l.stepBits));
    UnpackStep(l, s, id);
    UnpackNode(l, s, id);
    UnpackTime(l, s, id);
  }

  lemma UnpackStep(l: Layout, s: State, id: nat)
    requires ValidState(l, s) && id % Pow(2, l.stepBits) == s.step
    ensures StepOf(l, id) == s.step
  {
    AndMask(id, l.stepBits);
  }

  lemma UnpackTime(l: Layout, s: State, id: nat)
    requires ValidState(l, s) && id == High(l, s) * Pow(2, l.stepBits) + s.step
    ensures TimeOf(l, id) == s.time + Epoch
  {
    PowAdd(l.nodeBits, l.stepBits);
    TimeField(s.time, s.node, s.step, Pow(2, l.nodeBits), Pow(2, l.stepBits));
  }

  lemma TimeField(time: nat, node: nat, step: nat, n: nat, p: nat)
    requires node < n && step < p
    ensures ((time * n + node) * p + step) / (n * p) == time
  {
    Nest(time, node, n, p);
    Lexicographic(node, n, step, 0, p);
    DivModUnique(time, node * p + step, n * p);
  }

  lemma UnpackNode(l: Layout, s: State, id: nat)
    requires ValidState(l, s) && Shr(id, l.stepBits) == High(l, s)
    ensures NodeOf(l, id) == s.node
  {
    AndShifted(id, Mask(l.nodeBits), l.stepBits);
    AndMask(High(l, s), l.nodeBits);
    DivModUnique(s.time, s.node, Pow(2, l.nodeBits));
    PowPositive(2, l.stepBits);
    DivModUnique(s.node, 0, Pow(2, l.stepBits));
  }

  predicate Before(s: State, t: State) {
    s.time < t.time || (s.time == t.time && s.step < t.step)
  }

  /** IDs of one node are ordered by time, then step, and fit in the 63 bits of a positive int64. */
  lemma IdOrder(l: Layout, s: State, t: State)
    requires ValidState(l, s) && ValidState(l, t) && s.node == t.node && Before(s, t)
    ensures Id(l, s) < Id(l, t)
  {
    IdSum(l, s);
    IdSum(l, t);
    if s.time < t.time {
      Lexicographic(s.time, t.time, s.node, t.node, Pow(2, l.nodeBits));
      Lexicographic(High(l, s), High(l, t), s.step, t.step, Pow(2, l.stepBits));
    }
  }

  lemma IdFits(l: Layout, s: State)
    requires ValidState(l, s) && l.Fits() && s.time < CLOCK_LIMIT
    ensures Id(l, s) < 0x8000_0000_0000_0000
  {
    IdSum(l, s);
    var n, p, max := Pow(2, l.nodeBits), Pow(2, l.stepBits), Pow(2, 41);
    Pow41();
    Lexicographic(s.time, max, s.node, 0, n);
    Lexicographic(High(l, s), max * n, s.step, 0, p);
    PowAdd(l.nodeBits, l.stepBits);
    Nest(max, 0, n, p);
    PowMonotone(2, l.nodeBits + l.stepBits, 22);
    MulMono(n * p, Pow(2, 22), max);
    PowAdd(41, 22);
    Pow63();
  }

  lemma Pow41()
    ensures Pow(2, 41) == CLOCK_LIMIT
  {
    assert Pow(2, 10) == 1024 by { assert Pow(2, 5) == 32; }
    PowAdd(10, 10);
    PowAdd(20, 20);
    assert Pow(2, 41) == 2 * Pow(2, 40);
  }

  lemma Pow63()
    ensures Pow(2, 63) == 0x8000_0000_0000_0000
  {
    Pow41();
    assert Pow(2, 11) == 2048 by { assert Pow(2, 5) == 32; }
    PowAdd(11, 11);
    PowAdd(41, 22);
  }

  /** The first clock reading after time t; |clock| if there is none. */
  function FirstAfter(clock: seq<nat>, t: nat): (k: nat)
    ensures k <= |clock| && (forall i | 0 <= i < k :: clock[i] <= t) && (k < |clock| ==> clock[k] > t)
  {
    if clock == [] || clock[0] > t then 0 else 1 + FirstAfter(clock[1..], t)
  }

  datatype Outcome = Spinning | Generated(state: State, used: nat)

  /** What one call of Generate makes of the readings its clock is going to give. */
  function Generating(l: Layout, s: State, clock: seq<nat>): Outcome {
    if clock == [] then Spinning
    else if clock[0] != s.time then Generated(s.(time := clock[0], step := 0), 1)
    else
      var step := And(s.step + 1, Mask(l.stepBits));
      var k := FirstAfter(clock, s.time);
      if step != 0 then Generated(s.(step := step), 1)
      else if k < |clock| then Generated(s.(time := clock[k], step := 0), k + 1)
      else Spinning
  }

  predicate Ascending(clock: seq<nat>, from: nat) {
    (forall i | 0 <= i < |clock| :: from <= clock[i] < CLOCK_LIMIT) &&
    forall i, j | 0 <= i < j < |clock| :: clock[i] <= clock[j]
  }

  lemma GeneratingKeeps(l: Layout, s: State, clock: seq<nat>)
    requires ValidState(l, s) && Ascending(clock, s.time)
    ensures var o := Generating(l, s, clock); o.Generated? ==>
      ValidState(l, o.state) && o.state.node == s.node && Before(s, o.state) && o.state.time in clock &&
      0 < o.used <= |clock| && Ascending(clock[o.used..], o.state.time)
  {
    NextStep(s.step, l.stepBits);
  }

  /** A call gets its ID at its first reading of the clock, unless that is the last one's millisecond and
      all its steps have been taken: then at the first later reading. */
  lemma GeneratingWhen(l: Layout, s: State, clock: seq<nat>)
    requires ValidState(l, s)
    ensures var o, full := Generating(l, s, clock), clock != [] && clock[0] == s.time && s.step + 1 == Pow(2, l.stepBits);
      && (o.Generated? <==> clock != [] && (full ==> exists k :: 0 <= k < |clock| && clock[k] > s.time))
      && (o.Generated? ==>
            && 0 < o.used <= |clock| && o.state.time == clock[o.used - 1]
            && (o.used > 1 <==> full) && (full ==> clock[o.used - 1] > s.time && forall k | 0 <= k < o.used - 1 :: clock[k] <= s.time)
            && o.state.step == (if o.state.time == s.time then s.step + 1 else 0))
  {
    NextStep(s.step, l.stepBits);
    var k := FirstAfter(clock, s.time);
  }

  lemma NextStep(step: nat, bits: nat)
    requires step < Pow(2, bits)
    ensures And(step + 1, Mask(bits)) == if step + 1 < Pow(2, bits) then step + 1 else 0
  {
    AndMask(step + 1, bits);
    if step + 1 < Pow(2, bits) {
      DivModUnique(0, step + 1, Pow(2, bits));
    } else {
      DivModUnique(1, 0, Pow(2, bits));
    }
  }

  /** The IDs of one call of Generate after the other, until the clock gives no more readings. */
  function Run(l: Layout, s: State, clock: seq<nat>): seq<nat>
    decreases |clock|
  {
    var o := Generating(l, s, clock);
    if o.Generated? && 0 < o.used <= |clock| then [Id(l, o.state)] + Run(l, o.state, clock[o.used..]) else []
  }

  /** The ID was packed by a call that read its time from the clock. */
  ghost predicate FromClock(l: Layout, node: nat, clock: seq<nat>, id: nat) {
    exists s :: ValidState(l, s) && id == Id(l, s) && s.node == node && s.time in clock
  }

  /** Every run yields strictly increasing IDs that carry the node's number and a reading of its clock. */
  lemma StrictlyIncreasing(l: Layout, s: State, clock: seq<nat>)
    requires ValidState(l, s) && Ascending(clock, s.time)
    ensures forall i, j | 0 <= i < j < |Run(l, s, clock)| :: Run(l, s, clock)[i] < Run(l, s, clock)[j]
    ensures forall i | 0 <= i < |Run(l, s, clock)| ::
      Run(l, s, clock)[i] > Id(l, s) && FromClock(l, s.node, clock, Run(l, s, clock)[i])
  {
    Increasing(l, s, clock);
    forall i | 0 <= i < |Run(l, s, clock)| ensures FromClock(l, s.node, clock, Run(l, s, clock)[i]) { ReadFromClock(l, s, clock, i); }
  }

  predicate Ordered(ids: seq<nat>, from: nat) {
    (forall i | 0 <= i < |ids| :: ids[i] > from) && forall i, j | 0 <= i < j < |ids| :: ids[i] < ids[j]
  }

  lemma {:induction false} Increasing(l: Layout, s: State, clock: seq<nat>)
    requires ValidState(l, s) && Ascending(clock, s.time)
    ensures Ordered(Run(l, s, clock), Id(l, s))
    decreases |clock|
  {
    var o := Generating(l, s, clock);
    GeneratingKeeps(l, s, clock);
    if o.Generated? {
      Increasing(l, o.state, clock[o.used..]);
      IdOrder(l, s, o.state);
      OrderedCons(Id(l, s), Id(l, o.state), Run(l, o.state, clock[o.used..]));
    }
  }

  lemma OrderedCons(from: nat, id: nat, ids: seq<nat>)
    requires from < id && Ordered(ids, id)
    ensures Ordered([id] + ids, from)
  {}

  lemma {:induction false} ReadFromClock(l: Layout, s: State, clock: seq<nat>, i: nat)
    requires ValidState(l, s) && Ascending(clock, s.time) && i < |Run(l, s, clock)|
    ensures FromClock(l, s.node, clock, Run(l, s, clock)[i])
    decreases |clock|
  {
    var o := Generating(l, s, clock);
    GeneratingKeeps(l, s, clock);
    if i == 0 {
      OwnClock(l, o.state, clock);
    } else {
      ReadFromClock(l, o.state, clock[o.used..], i - 1);
      EarlierClock(l, s.node, clock, o.used, Run(l, s, clock)[i]);
    }
  }

  lemma OwnClock(l: Layout, s: State, clock: seq<nat>)
    requires ValidState(l, s) && s.time in clock
    ensures FromClock(l, s.node, clock, Id(l, s))
  {}

  lemma EarlierClock(l: Layout, node: nat, clock: seq<nat>, used: nat, id: nat)
    requires used <= |clock| && FromClock(l, node, clock[used..], id)
    ensures FromClock(l, node, clock, id)
  {
    var t :| ValidState(l, t) && id == Id(l, t) && t.node == node && t.time in clock[used..];
    assert t.time in clock;
  }

  // ----- the steps of a millisecond

  /** One call: its ID, its first reading and the number of its readings. */
  datatype Call = Call(id: nat, first: nat, used: nat)

  function Calls(l: Layout, s: State, clock: seq<nat>): seq<Call>
    decreases |clock|
  {
    var o := Generating(l, s, clock);
    if o.Generated? && 0 < o.used <= |clock|
    then [Call(Id(l, o.state), clock[0], o.used)] + Calls(l, o.state, clock[o.used..]) else []
  }

  lemma {:induction false} CallsAreRun(l: Layout, s: State, clock: seq<nat>)
    ensures |Calls(l, s, clock)| == |Run(l, s, clock)|
    ensures forall i | 0 <= i < |Run(l, s, clock)| :: Calls(l, s, clock)[i].id == Run(l, s, clock)[i]
    decreases |clock|
  {
    var o := Generating(l, s, clock);
    if o.Generated? && 0 < o.used <= |clock| { CallsAreRun(l, o.state, clock[o.used..]); }
  }

  /** The milliseconds in the time field. */
  function Millis(l: Layout, id: nat): nat {
    TimeOf(l, id) - Epoch
  }

  /** How many of the IDs have that time. */
  function Count(l: Layout, ids: seq<nat>, time: nat): nat {
    if ids == [] then 0 else (if Millis(l, ids[0]) == time then 1 else 0) + Count(l, ids[1..], time)
  }

  /** How many steps of that millisecond a node has taken that was in state s before it generated ids. */
  function Taken(l: Layout, s: State, ids: seq<nat>, time: nat): nat {
    Count(l, ids, time) + if time == s.time then s.step + 1 else 0
  }

  /** The steps taken are the same whether one call more is counted as past or as an ID. */
  lemma TakenShift(l: Layout, s: State, t: State, ids: seq<nat>, time: nat)
    requires ValidState(l, t) && s.time <= t.time <= time && t.step == if t.time == s.time then s.step + 1 else 0
    ensures Taken(l, s, [Id(l, t)] + ids, time) == Taken(l, t, ids, time)
  {
    Unpack(l, t);
    assert ([Id(l, t)] + ids)[1..] == ids;
  }

  /** The ID and the first reading of a call, against what was taken before. */
  ghost predicate InOrder(l: Layout, s: State, ids: seq<nat>, c: Call, least: nat) {
    && least <= Millis(l, c.id) && least <= c.first
    && StepOf(l, c.id) == Taken(l, s, ids, Millis(l, c.id))
    && (c.used > 1 <==> Taken(l, s, ids, c.first) == Pow(2, l.stepBits))
  }

  lemma FirstCall(l: Layout, s: State, clock: seq<nat>)
    requires ValidState(l, s) && Ascending(clock, s.time) && Calls(l, s, clock) != []
    ensures InOrder(l, s, [], Calls(l, s, clock)[0], s.time)
  {
    GeneratingKeeps(l, s, clock);
    GeneratingWhen(l, s, clock);
    Unpack(l, Generating(l, s, clock).state);
    PowPositive(2, l.stepBits);
  }

  lemma {:induction false} CallsInOrder(l: Layout, s: State, clock: seq<nat>, i: nat)
    requires ValidState(l, s) && Ascending(clock, s.time) && i < |Calls(l, s, clock)| == |Run(l, s, clock)|
    ensures InOrder(l, s, Run(l, s, clock)[..i], Calls(l, s, clock)[i], s.time)
    decreases |clock|
  {
    if i == 0 {
      FirstCall(l, s, clock);
    } else {
      var o := Generating(l, s, clock);
      var rest := clock[o.used..];
      GeneratingKeeps(l, s, clock);
      CallsAreRun(l, o.state, rest);
      CallsInOrder(l, o.state, rest, i - 1);
      NextCall(l, s, clock, o, Run(l, o.state, rest)[..i - 1], Calls(l, o.state, rest)[i - 1]);
      assert Run(l, s, clock)[..i] == [Id(l, o.state)] + Run(l, o.state, rest)[..i - 1];
    }
  }

  lemma NextCall(l: Layout, s: State, clock: seq<nat>, o: Outcome, ids: seq<nat>, c: Call)
    requires ValidState(l, s) && Ascending(clock, s.time) && o == Generating(l, s, clock) && o.Generated?
    requires InOrder(l, o.state, ids, c, o.state.time)
    ensures InOrder(l, s, [Id(l, o.state)] + ids, c, s.time)
  {
    GeneratingKeeps(l, s, clock);
    GeneratingWhen(l, s, clock);
    TakenShift(l, s, o.state, ids, Millis(l, c.id));
    TakenShift(l, s, o.state, ids, c.first);
  }

  /** The steps of a millisecond are taken one after the other from 0: an ID's step is the number of those
      taken before it. And a call waits for a later reading exactly if all steps of its first one are taken. */
  lemma StepsInOrder(l: Layout, s: State, clock: seq<nat>, i: nat)
    requires ValidState(l, s) && Ascending(clock, s.time) && i < |Run(l, s, clock)|
    ensures |Calls(l, s, clock)| == |Run(l, s, clock)| && Calls(l, s, clock)[i].id == Run(l, s, clock)[i]
    ensures var ids, c := Run(l, s, clock), Calls(l, s, clock)[i];
      && StepOf(l, ids[i]) == Taken(l, s, ids[..i], Millis(l, ids[i]))
      && (c.used > 1 <==> Taken(l, s, ids[..i], c.first) == Pow(2, l.stepBits))
  {
    CallsAreRun(l, s, clock);
    CallsInOrder(l, s, clock, i);
  }

  /** The fields of a generated ID: no wrap into the sign bit, its node, and a time its clock showed. */
  lemma RunFields(l: Layout, s: State, clock: seq<nat>, i: nat)
    requires l.Fits() && ValidState(l, s) && Ascending(clock, s.time) && i < |Run(l, s, clock)|
    ensures var id := Run(l, s, clock)[i];
      id < 0x8000_0000_0000_0000 && NodeOf(l, id) == s.node &&
      exists t | t in clock :: TimeOf(l, id) == t + Epoch
  {
    StrictlyIncreasing(l, s, clock);
    var id := Run(l, s, clock)[i];
    var t :| ValidState(l, t) && id == Id(l, t) && t.node == s.node && t.time in clock;
    Unpack(l, t);
    IdFits(l, t);
  }

  /** Nodes with different numbers never generate the same ID, whatever their clocks. */
  lemma NeverCollide(l: Layout, s: State, t: State, clock: seq<nat>, other: seq<nat>, i: nat, j: nat)
    requires l.Fits() && ValidState(l, s) && ValidState(l, t) && s.node != t.node
    requires Ascending(clock, s.time) && Ascending(other, t.time)
    requires i < |Run(l, s, clock)| && j < |Run(l, t, other)|
    ensures Run(l, s, clock)[i] != Run(l, t, other)[j]
  {
    RunFields(l, s, clock, i);
    RunFields(l, t, other, j);
  }

  class Node {
    const layout: Layout
    const node: nat
    const stepMask: nat
    const timeShift: nat
    const nodeShift: nat
    var time: nat
    var step: nat

    constructor (layout: Layout, node: nat)
      requires node < Pow(2, layout.nodeBits)
      ensures Valid() && this.layout == layout && Model() == State(0, node, 0)
    {
      this.layout, this.node := layout, node;
      stepMask, timeShift, nodeShift := Mask(layout.stepBits), layout.nodeBits + layout.stepBits, layout.stepBits;
      time, step := 0, 0;
      new;
      PowPositive(2, layout.stepBits);
    }

    ghost function Model(): State
      reads this
    {
      State(time, node, step)
    }

    ghost predicate Valid()
      reads this
    {
      stepMask == Mask(layout.stepBits) && timeShift == layout.nodeBits + layout.stepBits &&
      nodeShift == layout.stepBits && ValidState(layout, Model())
    }

    /** clock: the readings of the clock in the order they are taken; used: how many were. */
    method Generate(clock: seq<nat>) returns (id: nat, used: nat)
      requires Valid() && Generating(layout, Model(), clock).Generated?
      modifies this
      ensures Valid() && Generating(layout, old(Model()), clock) == Generated(Model(), used) && id == Id(layout, Model())
      ensures 0 < used <= |clock| && time == clock[used - 1] && step == if time == old(time) then old(step) + 1 else 0
      ensures used > 1 <==> clock[0] == old(time) && old(step) + 1 == Pow(2, layout.stepBits)
    {
      GeneratingWhen(layout, Model(), clock);
      var now := clock[0];
      used := 1;
      NextStep(step, layout.stepBits);
      if now == time {
        step := And(step + 1, stepMask);
        if step == 0 {
          while now <= time
            invariant 1 <= used <= |clock| && now == clock[used - 1] && used <= FirstAfter(clock, time) + 1
            decreases |clock| - used
          {
            now := clock[used];
            used := used + 1;
          }
        }
      } else {
        step := 0;
      }
      time := now;
      id := Or(Or(Shl(now, timeShift), Shl(node, nodeShift)), step);
    }
  }

  /** Refuses a node number the node bits cannot hold. */
  method NewNode(layout: Layout, node: int) returns (n: Node?)
    ensures n == null <==> node < 0 || node >= Pow(2, layout.nodeBits)
    ensures n != null ==> fresh(n) && n.Valid() && n.layout == layout && n.Model() == State(0, node, 0)
  {
    if node < 0 || node > Mask(layout.nodeBits) {
      return null;
    }
    n := new Node(layout, node);
  }
}
