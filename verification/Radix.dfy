/** The machine integers of the codecs. */
module Words {
  type byte = x: nat | x < 256

  type int64 = x: int | -0x8000_0000_0000_0000 <= x < 0x8000_0000_0000_0000

  /** What is left of an integer in 64 bits, two's complement. */
  function Wrap64(n: int): int64 {
    (n + 0x8000_0000_0000_0000) % 0x1_0000_0000_0000_0000 - 0x8000_0000_0000_0000
  }
}

/** Numbers and their digits, most significant digit first. */
module Radix {
  function Pow(base: nat, n: nat): nat {
    if n == 0 then 1 else base * Pow(base, n - 1)
  }

  lemma PowPositive(base: nat, n: nat)
    requires base > 0
    ensures Pow(base, n) > 0
  {}

  lemma PowMonotone(base: nat, m: nat, n: nat)
    requires base > 0 && m <= n
    ensures Pow(base, m) <= Pow(base, n)
    decreases n
  {
    if m < n {
      PowMonotone(base, m, n - 1);
      MulMono(1, base, Pow(base, n - 1));
    }
  }

  predicate AllBelow(ds: seq<nat>, base: nat) {
    forall i | 0 <= i < |ds| :: ds[i] < base
  }

  function Value(ds: seq<nat>, base: nat): nat {
    if ds == [] then 0 else Value(ds[..|ds| - 1], base) * base + ds[|ds| - 1]
  }

  function Digits(n: nat, base: nat): (ds: seq<nat>)
    requires base >= 2
    ensures AllBelow(ds, base)
    ensures ds != [] ==> ds[0] != 0
    ensures ds == [] <==> n == 0
    decreases n
  {
    if n == 0 then [] else
      assert n / base < n by { Smaller(n, base); }
      Digits(n / base, base) + [n % base]
  }

  lemma Smaller(n: nat, base: nat)
    requires n > 0 && base >= 2
    ensures n / base < n
  {
    var q := n / base;
    assert n == q * base + n % base;
    if q >= n { assert q * base >= q * 2 by { MulMono(2, base, q); } }
  }

  lemma Split(n: nat, base: nat)
    requires base >= 2
    ensures n == n / base * base + n % base
  {}

  lemma MulMono(a: nat, b: nat, c: nat)
    requires a <= b
    ensures c * a <= c * b && a * c <= b * c
  {}

  lemma DivModUnique(q: nat, r: nat, base: nat)
    requires r < base
    ensures (q * base + r) / base == q && (q * base + r) % base == r
  {
    var n := q * base + r;
    var q', r' := n / base, n % base;
    assert q' * base + r' == q * base + r;
    if q' < q { MulMono(q' + 1, q, base); } else if q < q' { MulMono(q + 1, q', base); }
  }

  lemma ValueSnoc(most: seq<nat>, last: nat, base: nat)
    ensures Value(most + [last], base) == Value(most, base) * base + last
  {
    assert (most + [last])[..|most|] == most;
  }

  lemma {:induction false} ValueOfDigits(n: nat, base: nat)
    requires base >= 2
    ensures Value(Digits(n, base), base) == n
    decreases n
  {
    if n > 0 {
      Smaller(n, base);
      var q, d := n / base, n % base;
      Split(n, base);
      ValueOfDigits(q, base);
      ValueSnoc(Digits(q, base), d, base);
      assert Digits(n, base) == Digits(q, base) + [d];
    }
  }

  /** Digit strings without leading zeros are the digits of their value. */
  lemma {:induction false} DigitsOfValue(ds: seq<nat>, base: nat)
    requires base >= 2 && (AllBelow(ds, base)) && (ds != [] ==> ds[0] != 0)
    ensures Digits(Value(ds, base), base) == ds
    decreases |ds|
  {
    if ds != [] {
      var most, last := ds[..|ds| - 1], ds[|ds| - 1];
      DigitsOfValue(most, base);
      DivModUnique(Value(most, base), last, base);
      if most == [] {
        assert Value(ds, base) == last && Digits(last / base, base) == [];
      } else {
        assert Value(most, base) != 0;
        MulMono(1, Value(most, base), base);
      }
      assert ds == most + [last];
    }
  }

  lemma {:induction false} ValueAppend(xs: seq<nat>, ys: seq<nat>, base: nat)
    ensures Value(xs + ys, base) == Value(xs, base) * Pow(base, |ys|) + Value(ys, base)
    decreases |ys|
  {
    if ys == [] {
      assert xs + ys == xs;
    } else {
      var most := ys[..|ys| - 1];
      assert (xs + ys)[..|xs + ys| - 1] == xs + most;
      ValueAppend(xs, most, base);
      var v, p, w := Value(xs, base), Pow(base, |most|), Value(most, base);
      Distribute(v, p, w, base);
    }
  }

  lemma Distribute(v: nat, p: nat, w: nat, base: nat)
    ensures (v * p + w) * base == v * (base * p) + w * base
  {}

  lemma {:induction false} ValueBound(ds: seq<nat>, base: nat)
    requires base >= 2 && AllBelow(ds, base)
    ensures Value(ds, base) < Pow(base, |ds|)
    decreases |ds|
  {
    if ds != [] {
      ValueBound(ds[..|ds| - 1], base);
      MulMono(Value(ds[..|ds| - 1], base) + 1, Pow(base, |ds| - 1), base);
    }
  }

  function Zeros(n: nat): (zs: seq<nat>)
    ensures |zs| == n && forall i | 0 <= i < n :: zs[i] == 0
  {
    seq(n, _ => 0)
  }

  lemma {:induction false} LeadingZeros(n: nat, ds: seq<nat>, base: nat)
    ensures Value(Zeros(n) + ds, base) == Value(ds, base)
    decreases n
  {
    ZerosValue(n, base);
    ValueAppend(Zeros(n), ds, base);
  }

  lemma {:induction false} ZerosValue(n: nat, base: nat)
    ensures Value(Zeros(n), base) == 0
    decreases n
  {
    if n > 0 {
      ZerosValue(n - 1, base);
      assert Zeros(n)[..n - 1] == Zeros(n - 1);
    }
  }

  /** How many zeros a digit string starts with. */
  function ZeroPrefix(ds: seq<nat>): (n: nat)
    ensures n <= |ds| && (forall i | 0 <= i < n :: ds[i] == 0) && (n < |ds| ==> ds[n] != 0)
  {
    if ds == [] || ds[0] != 0 then 0 else 1 + ZeroPrefix(ds[1..])
  }

  lemma ZeroPrefixUnique(ds: seq<nat>, n: nat)
    requires n <= |ds| && (forall i | 0 <= i < n :: ds[i] == 0) && (n < |ds| ==> ds[n] != 0)
    ensures ZeroPrefix(ds) == n
  {
    var k := ZeroPrefix(ds);
    assert k < |ds| ==> ds[k] != 0;
  }

  /** Changing the base of a digit string, a leading zero for a leading zero. */
  function Rebase(ds: seq<nat>, from: nat, to: nat): seq<nat>
    requires to >= 2
  {
    Zeros(ZeroPrefix(ds)) + Digits(Value(ds, from), to)
  }

  /** Rebasing there and back is the identity on every digit string. */
  lemma RebaseRoundTrip(ds: seq<nat>, a: nat, b: nat)
    requires a >= 2 && b >= 2 && AllBelow(ds, a)
    ensures Rebase(Rebase(ds, a, b), b, a) == ds
  {
    var n := ZeroPrefix(ds);
    var rest := ds[n..];
    assert ds == Zeros(n) + rest;
    LeadingZeros(n, rest, a);
    DigitsOfValue(rest, a);
    var v := Value(rest, a);
    var mid := Rebase(ds, a, b);
    LeadingZeros(n, Digits(v, b), b);
    ValueOfDigits(v, b);
    ZeroPrefixUnique(mid, n);
  }

  /** Rebasing keeps the number and the zeros in front of it. */
  lemma RebaseValue(ds: seq<nat>, a: nat, b: nat)
    requires b >= 2
    ensures Value(Rebase(ds, a, b), b) == Value(ds, a) && ZeroPrefix(Rebase(ds, a, b)) == ZeroPrefix(ds)
  {
    var n, v := ZeroPrefix(ds), Value(ds, a);
    LeadingZeros(n, Digits(v, b), b);
    ValueOfDigits(v, b);
    ZeroPrefixUnique(Rebase(ds, a, b), n);
  }
}
