/** extend/base58/base58.go: Encode and Decode, in chunks of ten digits so that the
    inner loops stay in 64 bits. */
module Base58 {
  import opened Words
  import opened Radix

  datatype Decoding = Decoded(output: seq<byte>) | Invalid(symbol: byte, position: nat)

  const ALPHABET := "123456789" + "ABCDEFGH" + "JKLMN" + "PQRSTUVWXYZ" + "abcdefghijk" + "mnopqrstuvwxyz"

  const RADIX := 430804206899405824  // bigIntermediateRadix, 58^10

  /** b58table: the digit of a symbol, 255 for a byte that is none. */
  function Table(c: byte): byte {
    if 49 <= c <= 57 then c - 49
    else if 65 <= c <= 72 then c - 56
    else if 74 <= c <= 78 then c - 57
    else if 80 <= c <= 90 then c - 58
    else if 97 <= c <= 107 then c - 64
    else if 109 <= c <= 122 then c - 65
    else 255
  }

  /** alphabet[d], as AlphabetSymbols says. */
  function Symbol(d: nat): byte
    requires d < 58
  {
    if d < 9 then 49 + d
    else if d < 17 then 56 + d
    else if d < 22 then 57 + d
    else if d < 33 then 58 + d
    else if d < 44 then 64 + d
    else 65 + d
  }

  lemma AlphabetSymbols(d: nat)
    requires d < 58
    ensures |ALPHABET| == 58 && ALPHABET[d] as int == Symbol(d)
  {
    if d < 33 { UpperSymbols(d); } else { LowerSymbols(d); }
  }

  lemma UpperSymbols(d: nat)
    requires d < 33
    ensures ALPHABET[d] as int == Symbol(d)
  {}

  lemma LowerSymbols(d: nat)
    requires 33 <= d < 58
    ensures ALPHABET[d] as int == Symbol(d)
  {}

  /** The table inverts the alphabet, and marks every other byte. */
  lemma TableInverts(d: nat, c: byte)
    requires d < 58
    ensures Table(c) == d <==> c == Symbol(d)
    ensures Table(c) != 255 ==> Table(c) < 58
  {}

  lemma RadixIsChunk()
    ensures RADIX == Pow(58, 10)
  {
    assert Pow(58, 5) == 656356768 by { assert Pow(58, 2) == 3364; }
    assert Pow(58, 10) == 58 * (58 * (58 * (58 * (58 * Pow(58, 5)))));
  }

  predicate ValidText(text: seq<byte>) {
    forall i | 0 <= i < |text| :: Table(text[i]) != 255
  }

  function Symbols(ds: seq<nat>): seq<byte>
    requires AllBelow(ds, 58)
  {
    seq(|ds|, i requires 0 <= i < |ds| => Symbol(ds[i]))
  }

  function Indices(text: seq<byte>): seq<nat> {
    seq(|text|, i requires 0 <= i < |text| => Table(text[i]))
  }

  /** The base 58 numeral of the bytes read as a number, one '1' for each leading zero byte. */
  function Encoded(input: seq<byte>): seq<byte> {
    Symbols(Rebase(input, 256, 58))
  }

  function Bytes(text: seq<byte>): seq<byte> {
    Rebase(Indices(text), 58, 256)
  }

  /** Encoding yields valid text and decoding it gives every byte back, leading zeros included. */
  lemma DecodeEncode(input: seq<byte>)
    ensures ValidText(Encoded(input)) && Bytes(Encoded(input)) == input
  {
    var ds := Rebase(input, 256, 58);
    forall i | 0 <= i < |ds| ensures Table(Symbols(ds)[i]) == ds[i] {
      TableInverts(ds[i], Symbols(ds)[i]);
    }
    assert Indices(Symbols(ds)) == ds;
    RebaseRoundTrip(input, 256, 58);
  }

  /** Every valid text is the encoding of what it decodes to: no two texts mean the same bytes. */
  lemma EncodeDecode(text: seq<byte>)
    requires ValidText(text)
    ensures Encoded(Bytes(text)) == text
  {
    var ds := Indices(text);
    forall i | 0 <= i < |ds| ensures ds[i] < 58 && Symbol(ds[i]) == text[i] {
      TableInverts(0, text[i]);
      TableInverts(ds[i], text[i]);
    }
    RebaseRoundTrip(ds, 58, 256);
    assert Symbols(ds) == text;
  }

  /** The text is the number of the bytes, most significant digit first, and of the same number of zeros. */
  lemma SameNumber(input: seq<byte>)
    ensures var ds := Indices(Encoded(input));
      Value(ds, 58) == Value(input, 256) && ZeroPrefix(ds) == ZeroPrefix(input)
  {
    var ds := Rebase(input, 256, 58);
    forall i | 0 <= i < |ds| ensures Table(Symbols(ds)[i]) == ds[i] {
      TableInverts(ds[i], Symbols(ds)[i]);
    }
    assert Indices(Symbols(ds)) == ds;
    RebaseValue(input, 256, 58);
  }

  /** The bytes 0, 0, 97, 98 are "11" and then 24930 = (7 * 58 + 23) * 58 + 48. */
  lemma KnownText()
    ensures Encoded([0, 0, 97, 98]) == [Symbol(0), Symbol(0), Symbol(7), Symbol(23), Symbol(48)]
  {
    var ds: seq<nat> := [0, 0, 97, 98];
    ZeroPrefixUnique(ds, 2);
    assert Value(ds, 256) == 24930 by {
      assert ds[..3] == [0, 0, 97] && [0, 0, 97][..2] == [0, 0] && [0, 0][..1] == [0];
      assert Value([0, 0], 256) == 0;
      assert Value([0, 0, 97], 256) == 97;
    }
    assert Digits(24930, 58) == [7, 23, 48];
    assert Rebase(ds, 256, 58) == [0, 0, 7, 23, 48];
  }

  /** The digits of num * 58^k + p, low digit first: what one round of the inner loop emits. */
  lemma LowDigit(num: nat, p: nat, k: nat)
    requires k > 0 && num + p > 0 && p < Pow(58, k)
    ensures p / 58 < Pow(58, k - 1)
    ensures Digits(num * Pow(58, k) + p, 58) == Digits(num * Pow(58, k - 1) + p / 58, 58) + [p % 58]
  {
    var w := Pow(58, k - 1);
    var n := num * Pow(58, k) + p;
    assert n == (num * w + p / 58) * 58 + p % 58 by {
      assert num * (58 * w) == (num * w) * 58;
    }
    DivModUnique(num * w + p / 58, p % 58, 58);
    assert n > 0 by {
      if num > 0 { PowPositive(58, k); MulMono(1, num, Pow(58, k)); }
    }
  }

  /** The output buffer holds the digits ds, lowest first. */
  predicate Emitted(output: seq<byte>, ds: seq<nat>) {
    |output| == |ds| && AllBelow(ds, 58) &&
    forall i | 0 <= i < |ds| :: output[i] == Symbol(ds[|ds| - 1 - i])
  }

  method Encode(input: seq<byte>) returns (text: seq<byte>)
    ensures text == Encoded(input)
  {
    var num := Value(input, 256);
    var output := EmitDigits(num);
    var i := 0;
    while i < |input| && input[i] == 0
      invariant i <= |input| && forall k | 0 <= k < i :: input[k] == 0
      invariant Emitted(output, Zeros(i) + Digits(num, 58))
    {
      ZeroMore(i, Digits(num, 58));
      EmitOne(output, Zeros(i) + Digits(num, 58), 0);
      output := output + [Symbol(0)];
      i := i + 1;
    }
    ZeroPrefixUnique(input, i);
    var buffer := new byte[|output|](k requires 0 <= k < |output| => output[k]);
    Revert(buffer);
    text := buffer[..];
    Turned(output, Zeros(i) + Digits(num, 58), text);
  }

  lemma Turned(output: seq<byte>, ds: seq<nat>, text: seq<byte>)
    requires Emitted(output, ds) && |text| == |output| && forall k | 0 <= k < |text| :: text[k] == output[|output| - 1 - k]
    ensures text == Symbols(ds)
  {}

  lemma ZeroMore(n: nat, ds: seq<nat>)
    ensures [0] + (Zeros(n) + ds) == Zeros(n + 1) + ds
  {}

  method EmitDigits(whole: nat) returns (output: seq<byte>)
    ensures Emitted(output, Digits(whole, 58))
  {
    output := [];
    var num: nat := whole;
    ghost var low: seq<nat> := [];
    while num > 0
      invariant Digits(whole, 58) == Digits(num, 58) + low && Emitted(output, low)
      decreases num
    {
      StartChunk(num);
      output, low := EmitChunk(num / RADIX, num % RADIX, output, whole, low);
      num := num / RADIX;
    }
  }

  /** The inner loop: the ten low digits, or only those that count once num is used up. */
  method EmitChunk(num: nat, mod: int64, buffer: seq<byte>, ghost whole: nat, ghost low: seq<nat>)
    returns (output: seq<byte>, ghost low': seq<nat>)
    requires mod >= 0 && Pending(whole, num, mod, 10, low) && Emitted(buffer, low)
    ensures Emitted(output, low') && Digits(whole, 58) == Digits(num, 58) + low'
  {
    output, low' := buffer, low;
    var primitive: int64, i := mod, 0;
    while (num > 0 || primitive > 0) && i < 10
      invariant 0 <= i <= 10 && primitive >= 0
      invariant Pending(whole, num, primitive, 10 - i, low') && Emitted(output, low')
      decreases 10 - i
    {
      primitive, output, low' := EmitLow(num, primitive, 10 - i, output, whole, low');
      i := i + 1;
    }
    AllEmitted(whole, num, primitive, 10 - i, low');
  }

  lemma AllEmitted(whole: nat, num: nat, p: nat, k: nat, low: seq<nat>)
    requires Pending(whole, num, p, k, low) && (k == 0 || num == p == 0)
    ensures Digits(whole, 58) == Digits(num, 58) + low
  {
    assert num * Pow(58, k) + p == num by { NothingLeft(num, p, k); }
  }

  lemma NothingLeft(num: nat, p: nat, k: nat)
    requires p < Pow(58, k) && (k == 0 || num == p == 0)
    ensures num * Pow(58, k) + p == num
  {}

  method EmitLow(num: nat, p: int64, ghost k: nat, buffer: seq<byte>, ghost whole: nat, ghost low: seq<nat>)
    returns (p': int64, output: seq<byte>, ghost low': seq<nat>)
    requires p >= 0 && Pending(whole, num, p, k, low) && k > 0 && num + p > 0 && Emitted(buffer, low)
    ensures p' >= 0 && Pending(whole, num, p', k - 1, low') && Emitted(output, low')
  {
    EmitPending(whole, num, p, k, low);
    EmitOne(buffer, low, p % 58);
    p', output, low' := p / 58, buffer + [Symbol(p % 58)], [p % 58] + low;
  }

  /** Of the digits of whole, low are out; the rest are those of num * 58^k + p. */
  predicate Pending(whole: nat, num: nat, p: nat, k: nat, low: seq<nat>) {
    p < Pow(58, k) && Digits(whole, 58) == Digits(num * Pow(58, k) + p, 58) + low
  }

  lemma EmitPending(whole: nat, num: nat, p: nat, k: nat, low: seq<nat>)
    requires Pending(whole, num, p, k, low) && k > 0 && num + p > 0
    ensures Pending(whole, num, p / 58, k - 1, [p % 58] + low)
  {
    LowDigit(num, p, k);
  }

  lemma EmitOne(output: seq<byte>, ds: seq<nat>, d: nat)
    requires Emitted(output, ds) && d < 58
    ensures Emitted(output + [Symbol(d)], [d] + ds)
  {}

  lemma StartChunk(num: nat)
    requires num > 0
    ensures num / RADIX < num && num == num / RADIX * Pow(58, 10) + num % RADIX && num % RADIX < Pow(58, 10)
  {
    RadixIsChunk();
    Split(num, RADIX);
    Smaller(num, RADIX);
  }

  method Revert(output: array<byte>)
    modifies output
    ensures forall k | 0 <= k < output.Length :: output[k] == old(output[output.Length - 1 - k])
  {
    var i := 0;
    while i < output.Length / 2
      invariant 0 <= i <= output.Length / 2
      invariant forall k | 0 <= k < i || output.Length - i <= k < output.Length ::
        output[k] == old(output[output.Length - 1 - k])
      invariant forall k | i <= k < output.Length - i :: output[k] == old(output[k])
    {
      output[i], output[output.Length - 1 - i] := output[output.Length - 1 - i], output[i];
      i := i + 1;
    }
  }

  /** The value of a chunk and its weight both fit in 64 bits. */
  lemma Chunk(chunk: seq<nat>, d: nat)
    requires |chunk| < 10 && AllBelow(chunk, 58) && d < 58
    ensures Value(chunk + [d], 58) == Value(chunk, 58) * 58 + d
    ensures Value(chunk + [d], 58) < Pow(58, |chunk| + 1) <= Pow(58, 10) < 0x8000_0000_0000_0000
  {
    ValueSnoc(chunk, d, 58);
    ValueBound(chunk + [d], 58);
    PowMonotone(58, |chunk| + 1, 10);
    RadixIsChunk();
  }

  lemma OneMore(text: seq<byte>, start: nat, i: nat)
    requires start <= i < |text| && ValidText(text[start..i]) && Table(text[i]) != 255
    ensures ValidText(text[start..i + 1]) && Table(text[i]) < 58
    ensures Indices(text)[start..i + 1] == Indices(text)[start..i] + [Table(text[i])]
  {
    TableInverts(0, text[i]);
    assert text[start..i + 1] == text[start..i] + [text[i]];
  }

  /** The inner loop: reads up to the next multiple of ten. */
  method ReadChunk(text: seq<byte>, start: nat) returns (i: nat, a: int64, m: int64, ghost chunk: seq<nat>, bad: bool)
    requires start < |text| && start % 10 == 0
    ensures start <= i <= |text| && ValidText(text[start..i])
    ensures bad ==> i < |text| && Table(text[i]) == 255
    ensures !bad ==> i > start && (i % 10 == 0 || i == |text|)
    ensures !bad ==> chunk == Indices(text)[start..i] && a == Value(chunk, 58) && m == Pow(58, |chunk|)
  {
    var f;
    a, m, f, i, chunk := 0, 58, true, start, [];
    NextTen(start);
    while i < |text| && (f || i % 10 != 0)
      invariant i <= start + 10 && Reading(text, start, i, f, a, m, chunk)
      decreases |text| - i
    {
      var tmp := Table(text[i]);
      if tmp == 255 { return i, a, m, chunk, true; }
      a, m, chunk := ReadSymbol(text, start, i, f, a, m, chunk, tmp);
      f := false;
      i := i + 1;
    }
    bad := false;
  }

  /** One symbol more; the first one leaves the weight at 58. */
  method ReadSymbol(text: seq<byte>, ghost start: nat, ghost i: nat, f: bool, a: int64, m: int64, ghost chunk: seq<nat>, tmp: nat)
    returns (a': int64, m': int64, ghost chunk': seq<nat>)
    requires Reading(text, start, i, f, a, m, chunk) && i < |text| && i < start + 10 && tmp == Table(text[i]) != 255
    ensures Reading(text, start, i + 1, false, a', m', chunk')
  {
    ReadOne(text, start, i, f, a, m, chunk);
    a', chunk' := a * 58 + tmp, chunk + [tmp];
    m' := if f then m else m * 58;
  }

  lemma NextTen(start: nat)
    requires start % 10 == 0
    ensures (start + 10) % 10 == 0
  {}

  /** The symbols from start to i have been read into a chunk of value a and weight m. */
  predicate Reading(text: seq<byte>, start: nat, i: nat, f: bool, a: int, m: int, chunk: seq<nat>) {
    start <= i <= |text| && (f <==> i == start) && ValidText(text[start..i]) && chunk == Indices(text)[start..i] &&
    AllBelow(chunk, 58) && a == Value(chunk, 58) && m == Pow(58, if f then 1 else |chunk|)
  }

  lemma ReadOne(text: seq<byte>, start: nat, i: nat, f: bool, a: int, m: int, chunk: seq<nat>)
    requires Reading(text, start, i, f, a, m, chunk) && i < |text| && i < start + 10 && Table(text[i]) != 255
    ensures var a', m' := a * 58 + Table(text[i]), if f then m else m * 58;
      Reading(text, start, i + 1, false, a', m', chunk + [Table(text[i])]) &&
      0 <= a' < 0x8000_0000_0000_0000 && 0 <= m' < 0x8000_0000_0000_0000
  {
    OneMore(text, start, i);
    Chunk(chunk, Table(text[i]));
  }

  /** Decodes valid text to the only bytes it encodes; otherwise names the first bad symbol. */
  method Decode(text: seq<byte>) returns (r: Decoding)
    ensures r.Decoded? <==> ValidText(text)
    ensures r.Decoded? ==> r.output == Bytes(text)
    ensures r.Invalid? ==> r.position < |text| && text[r.position] == r.symbol && Table(r.symbol) == 255
                           && ValidText(text[..r.position])
  {
    var result: nat, i := 0, 0;
    ghost var ds := Indices(text);
    while i < |text|
      invariant 0 <= i <= |text| && (i % 10 == 0 || i == |text|)
      invariant ValidText(text[..i]) && result == Value(ds[..i], 58)
    {
      var next, a, m, chunk, bad := ReadChunk(text, i);
      assert text[..next] == text[..i] + text[i..next];
      if bad { return Invalid(text[next], next); }
      assert ds[..next] == ds[..i] + chunk;
      ValueAppend(ds[..i], chunk, 58);
      result := result * m + a;
      i := next;
    }
    assert text[..i] == text && ds[..i] == ds;
    var tmpBytes := Digits(result, 256);
    var numZeros := LeadingOnes(text);
    r := Decoded(Zeros(numZeros) + tmpBytes);
  }

  /** The symbols for zero in front. */
  method LeadingOnes(text: seq<byte>) returns (numZeros: nat)
    ensures numZeros == ZeroPrefix(Indices(text))
  {
    numZeros := 0;
    while numZeros < |text| && text[numZeros] == '1' as int
      invariant numZeros <= |text| && forall k | 0 <= k < numZeros :: Indices(text)[k] == 0
    {
      numZeros := numZeros + 1;
    }
    ZeroPrefixUnique(Indices(text), numZeros);
  }
}
