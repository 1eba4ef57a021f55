/** extend/snowflake/snowflake.go: the base 32 and base 58 texts of an ID. */
module SnowflakeText {
  import opened Words
  import opened Radix
  import opened Wrappers

  const BASE32 := "ybndrfg8" + "ejkmcpqx" + "ot1uwisz" + "a345h769"

  const BASE58 := "123456789" + "abcdefghijk" + "mnopqrstuvwxyz" + "ABCDEFGH" + "JKLMN" + "PQRSTUVWXYZ"

  predicate IsBytes(a: string) {
    2 <= |a| <= 64 && forall i | 0 <= i < |a| :: a[i] as int < 256
  }

  predicate IsAlphabet(a: string) {
    IsBytes(a) && forall i, j | 0 <= i < j < |a| :: a[i] != a[j]
  }

  predicate InAlphabet(a: string, c: byte) {
    exists i | 0 <= i < |a| :: a[i] as int == c
  }

  /** The decoding table: only as many entries as there are symbols start out as "invalid". */
  predicate DecodesWith(table: seq<byte>, a: string)
    requires IsAlphabet(a)
  {
    |table| == 256 &&
    (forall i | 0 <= i < |a| :: table[a[i] as int] == i) &&
    forall c: byte | !InAlphabet(a, c) :: table[c] == if c < |a| then 255 else 0
  }

  method FillTable(a: string) returns (table: array<byte>)
    requires IsAlphabet(a)
    ensures fresh(table) && DecodesWith(table[..], a)
  {
    table := new byte[256](_ => 0);
    for i := 0 to |a|
      invariant forall c | 0 <= c < 256 :: table[c] == if c < i then 255 else 0
    {
      table[i] := 255;
    }
    for i := 0 to |a|
      invariant forall k | 0 <= k < i :: table[a[k] as int] == k
      invariant forall c: byte | (forall k | 0 <= k < i :: a[k] as int != c) :: table[c] == if c < |a| then 255 else 0
    {
      table[a[i] as int] := i;
    }
    assert forall c: byte | !InAlphabet(a, c) :: forall k | 0 <= k < |a| :: a[k] as int != c;
  }

  /** Every symbol of the package's two alphabets is printable and occurs once. */
  lemma Alphabets()
    ensures IsAlphabet(BASE32) && |BASE32| == 32 && IsAlphabet(BASE58) && |BASE58| == 58
  {
    forall i, j | 0 <= i < j < 32 ensures BASE32[i] != BASE32[j] { Distinct32(i, j); }
    forall i | 0 <= i < 58 ensures BASE58[i] as int < 256 { Rank(i); }
    forall i, j | 0 <= i < j < 58 ensures BASE58[i] != BASE58[j] {
      Rank(i);
      Rank(j);
    }
  }

  lemma Distinct32(i: nat, j: nat)
    requires i < j < 32
    ensures BASE32[i] != BASE32[j]
  {}

  /** The codes of BASE58 by position. */
  function Code(d: nat): nat
    requires d < 58
  {
    if d < 9 then 49 + d
    else if d < 20 then 88 + d
    else if d < 34 then 89 + d
    else if d < 42 then 31 + d
    else if d < 47 then 32 + d
    else 33 + d
  }

  lemma Rank(d: nat)
    requires d < 58
    ensures |BASE58| == 58 && BASE58[d] as int == Code(d)
  {
    if d < 34 { LowerRank(d); } else { UpperRank(d); }
  }

  lemma LowerRank(d: nat)
    requires d < 34
    ensures BASE58[d] as int == Code(d)
  {}

  lemma UpperRank(d: nat)
    requires 34 <= d < 58
    ensures BASE58[d] as int == Code(d)
  {}

  function Symbols(a: string, ds: seq<nat>): seq<byte>
    requires IsBytes(a) && AllBelow(ds, |a|)
  {
    seq(|ds|, i requires 0 <= i < |ds| => a[ds[i]] as int)
  }

  function Indices(table: seq<byte>, text: seq<byte>): seq<nat>
    requires |table| == 256
  {
    seq(|text|, i requires 0 <= i < |text| => table[text[i]])
  }

  /** The numeral of f; zero is written as one digit. */
  function Text(a: string, f: nat): seq<byte>
    requires IsBytes(a)
  {
    Symbols(a, Numeral(f, |a|))
  }

  function Numeral(f: nat, base: nat): (ds: seq<nat>)
    requires base >= 2
    ensures AllBelow(ds, base)
  {
    if f == 0 then [0] else Digits(f, base)
  }

  lemma NumeralValue(f: nat, base: nat)
    requires base >= 2
    ensures Value(Numeral(f, base), base) == f
  {
    if f == 0 { ValueSnoc([], 0, base); } else { ValueOfDigits(f, base); }
  }

  predicate Rejected(table: seq<byte>, text: seq<byte>)
    requires |table| == 256
  {
    exists i | 0 <= i < |text| :: table[text[i]] == 255
  }

  /** None for the error; otherwise the number read, as far as 64 bits hold it. */
  function Parsed(table: seq<byte>, base: nat, text: seq<byte>): Option<int64>
    requires |table| == 256
  {
    if Rejected(table, text) then None else Some(Wrap64(Value(Indices(table, text), base)))
  }

  /** Parsing the text of an ID gives the ID back, for every ID that is not negative. */
  lemma ParseFormat(a: string, table: seq<byte>, f: int64)
    requires IsAlphabet(a) && DecodesWith(table, a) && f >= 0
    ensures Parsed(table, |a|, Text(a, f)) == Some(f)
  {
    IndicesSymbols(a, table, Numeral(f, |a|));
    NumeralValue(f, |a|);
    WrapShift(f, 0);
  }

  lemma IndicesSymbols(a: string, table: seq<byte>, ds: seq<nat>)
    requires IsAlphabet(a) && DecodesWith(table, a) && AllBelow(ds, |a|)
    ensures Indices(table, Symbols(a, ds)) == ds && !Rejected(table, Symbols(a, ds))
  {
    var text := Symbols(a, ds);
    assert forall i | 0 <= i < |ds| :: table[text[i]] == ds[i] < |a|;
  }

  /** A byte that no text may hold and that the table marks so. */
  predicate Marked(a: string, c: byte) {
    c < |a| && !InAlphabet(a, c)
  }

  /** The table marks only its first entries: the error is returned exactly for texts that hold a byte
      below the size of the alphabet that is not in it. */
  lemma RejectedIff(a: string, table: seq<byte>, text: seq<byte>)
    requires IsAlphabet(a) && DecodesWith(table, a)
    ensures Rejected(table, text) <==> exists i | 0 <= i < |text| :: Marked(a, text[i])
  {
    forall c: byte ensures table[c] == 255 <==> Marked(a, c) {
      if InAlphabet(a, c) {
        var i :| 0 <= i < |a| && a[i] as int == c;
      }
    }
  }

  /** Any other byte outside the alphabet is no valid text, yet it is parsed, as the ID zero. */
  lemma InvalidAccepted(a: string, table: seq<byte>, c: byte)
    requires IsAlphabet(a) && DecodesWith(table, a) && c >= |a| && !InAlphabet(a, c)
    ensures Parsed(table, |a|, [c]) == Some(0)
  {
    RejectedIff(a, table, [c]);
    assert Indices(table, [c]) == [] + [0];
    ValueSnoc([], 0, |a|);
  }

  /** Hence the promise to refuse invalid text is kept exactly for texts that are valid or hold a byte
      that the table marks. */
  lemma RefusesInvalidIff(a: string, table: seq<byte>, text: seq<byte>)
    requires IsAlphabet(a) && DecodesWith(table, a)
    ensures (Parsed(table, |a|, text).None? <==> exists i | 0 <= i < |text| :: !InAlphabet(a, text[i]))
            <==> (exists i | 0 <= i < |text| :: Marked(a, text[i])) || forall i | 0 <= i < |text| :: InAlphabet(a, text[i])
  {
    RejectedIff(a, table, text);
  }

  /** In base 58 the marked bytes are those below '1', in base 32 those below ' ', and "l" is an input
      that shows the promise broken in both. */
  lemma MarkedBytes(c: byte)
    ensures Marked(BASE58, c) <==> c < 49
    ensures Marked(BASE32, c) <==> c < 32
    ensures !InAlphabet(BASE58, 108) && !InAlphabet(BASE32, 108)
  {
    forall i | 0 <= i < 58 ensures BASE58[i] as int >= 49 && BASE58[i] as int != 108 { Rank(i); }
    if 49 <= c < 58 {
      Rank(c - 49);
      assert InAlphabet(BASE58, c);
    }
    forall i | 0 <= i < 32 ensures BASE32[i] as int >= 49 && BASE32[i] as int != 108 { Code32(i); }
  }

  lemma Code32(i: nat)
    requires i < 32
    ensures |BASE32| == 32 && BASE32[i] as int >= 49 && BASE32[i] as int != 108
  {}

  predicate Emitted(a: string, b: seq<byte>, ds: seq<nat>)
    requires IsBytes(a)
  {
    |b| == |ds| && AllBelow(ds, |a|) && forall i | 0 <= i < |b| :: b[i] == a[ds[|ds| - 1 - i]] as int
  }

  /** Base32 and Base58. */
  method Format(a: string, id: int64) returns (text: seq<byte>)
    requires IsBytes(a) && id >= 0
    ensures text == Text(a, id)
  {
    if id < |a| {
      OneDigit(id, |a|);
      return [a[id] as int];
    }
    var b := EmitDigits(a, id);
    var buffer := new byte[|b|](k requires 0 <= k < |b| => b[k]);
    Reverse(buffer);
    text := buffer[..];
  }

  method EmitDigits(a: string, id: int64) returns (b: seq<byte>)
    requires IsBytes(a) && id >= 0
    ensures Emitted(a, b, Numeral(id, |a|))
  {
    b := [];
    var f := id;
    ghost var all, low: seq<nat> := Numeral(id, |a|), [];
    while f >= |a|
      invariant 0 <= f && all == Numeral(f, |a|) + low && Emitted(a, b, low)
    {
      f, b, low := EmitLow(a, f, b, low);
    }
    OneDigit(f, |a|);
    EmitOne(a, b, low, f);
    b := b + [a[f] as int];
  }

  /** One round of the loop. */
  method EmitLow(a: string, f: int64, b: seq<byte>, ghost low: seq<nat>)
    returns (q: int64, b': seq<byte>, ghost low': seq<nat>)
    requires IsBytes(a) && f >= |a| && Emitted(a, b, low)
    ensures 0 <= q < f && Numeral(f, |a|) + low == Numeral(q, |a|) + low' && Emitted(a, b', low')
  {
    var d;
    q, d := NextDigit(f, |a|);
    EmitOne(a, b, low, d);
    b', low' := b + [a[d] as int], [d] + low;
  }

  lemma EmitOne(a: string, b: seq<byte>, ds: seq<nat>, d: nat)
    requires IsBytes(a) && Emitted(a, b, ds) && d < |a|
    ensures Emitted(a, b + [a[d] as int], [d] + ds)
  {}

  lemma OneDigit(d: nat, base: nat)
    requires d < base && base >= 2
    ensures Numeral(d, base) == [d]
  {
    DivModUnique(0, d, base);
  }

  method NextDigit(f: int64, base: nat) returns (q: int64, d: nat)
    requires f >= base >= 2
    ensures 0 < q < f && d < base && Numeral(f, base) == Numeral(q, base) + [d]
  {
    Split(f, base);
    Smaller(f, base);
    q, d := f / base, f % base;
  }

  method Reverse(b: array<byte>)
    modifies b
    ensures forall k | 0 <= k < b.Length :: b[k] == old(b[b.Length - 1 - k])
  {
    var x, y := 0, b.Length - 1;
    while x < y
      invariant 0 <= x <= b.Length && x + y == b.Length - 1
      invariant forall k | 0 <= k < b.Length && (k < x || y < k) :: b[k] == old(b[b.Length - 1 - k])
      invariant forall k | x <= k <= y :: b[k] == old(b[k])
    {
      b[x], b[y] := b[y], b[x];
      x, y := x + 1, y - 1;
    }
  }

  /** ParseBase32 and ParseBase58. */
  method Parse(table: array<byte>, base: nat, text: seq<byte>) returns (id: Option<int64>)
    requires table.Length == 256
    ensures id == Parsed(table[..], base, text)
  {
    var n: int64 := 0;
    ghost var ds := Indices(table[..], text);
    for i := 0 to |text|
      invariant !Rejected(table[..], text[..i]) && n == Wrap64(Value(ds[..i], base))
    {
      assert text[..i + 1] == text[..i] + [text[i]] && ds[..i + 1] == ds[..i] + [ds[i]];
      if table[text[i]] == 255 { return None; }
      ValueSnoc(ds[..i], ds[i], base);
      WrapStep(Value(ds[..i], base), base, ds[i]);
      n := Wrap64(n * base + table[text[i]]);
    }
    assert text[..|text|] == text && ds[..|text|] == ds;
    id := Some(n);
  }

  /** Wrapping at every step or only at the end is the same. */
  lemma WrapStep(v: nat, base: nat, d: nat)
    ensures Wrap64(Wrap64(v) * base + d) == Wrap64(v * base + d)
  {
    var m := 0x1_0000_0000_0000_0000;
    var k := (v + 0x8000_0000_0000_0000) / m;
    assert Wrap64(v) == v - k * m;
    assert Wrap64(v) * base + d == v * base + d - (k * base) * m by {
      assert (v - k * m) * base == v * base - (k * base) * m;
    }
    WrapShift(v * base + d, k * base);
  }

  lemma WrapShift(n: int, k: int)
    ensures Wrap64(n - k * 0x1_0000_0000_0000_0000) == Wrap64(n)
  {}

  /** The most significant digit comes first: 65 = 2 * 32 + 1 is "nb", and 116 = 2 * 58 is "31". */
  lemma KnownTexts()
    ensures IsAlphabet(BASE32) && IsAlphabet(BASE58)
    ensures Text(BASE32, 65) == ['n' as int, 'b' as int] && Text(BASE58, 116) == ['3' as int, '1' as int]
  {
    Alphabets();
    assert Digits(65, 32) == [2, 1];
    assert Digits(116, 58) == [2, 0];
    assert BASE32[2] == 'n' && BASE32[1] == 'b' && BASE58[2] == '3' && BASE58[0] == '1';
  }
}
