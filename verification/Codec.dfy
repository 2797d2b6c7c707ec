/** Variable-length and fixed-width integers as bytes. */
module Codec {

  type Byte = x: nat | x < 256
  type Bytes = seq<Byte>

  const TWO_63: int := 0x8000_0000_0000_0000
  const TWO_64: int := 0x1_0000_0000_0000_0000

  type U64 = x: nat | x < TWO_64
  type I64 = x: int | -TWO_63 <= x < TWO_63

  datatype Error = UnexpectedEof | Overflow

  datatype Result<+T> = Ok(value: T) | Err(error: Error)

  datatype Decoded<+T> = Decoded(value: T, rest: Bytes)

  function Pow128(n: nat): (p: nat)
    ensures p > 0
  {
    if n == 0 then 1 else 128 * Pow128(n - 1)
  }

  // -------------------------------------------------------------------- varints

  /** Base 128, least significant group first; every byte but the last has its top bit set. */
  function VarU64(v: nat): Bytes {
    if v < 128 then [v] else [128 + v % 128] + VarU64(v / 128)
  }

  /** The number that groups of seven bits stand for. */
  function Value(s: Bytes): nat {
    if s == [] then 0 else s[0] % 128 + 128 * Value(s[1..])
  }

  /** How many bytes at the start of `s` have their top bit set. */
  function Run(s: Bytes): (n: nat)
    ensures n <= |s|
  {
    if s == [] || s[0] < 128 then 0 else 1 + Run(s[1..])
  }

  /** The plain decoder: take bytes up to the first one without the top bit, at most ten. */
  function PlainDecode(s: Bytes): Result<Decoded<nat>> {
    var n := Run(s);
    if n < |s| && (n < 9 || (n == 9 && s[9] <= 1)) then Ok(Decoded(Value(s[..n + 1]), s[n + 1..]))
    else if |s| >= 10 then Err(Overflow)
    else Err(UnexpectedEof)
  }

  method EncodeVarU64(n: U64) returns (out: Bytes)
    ensures out == VarU64(n)
  {
    var v: nat := n;
    out := [];
    while v >= 0x80
      invariant out + VarU64(v) == VarU64(n)
    {
      assert out + VarU64(v) == out + [128 + v % 128] + VarU64(v / 128);
      out := out + [128 + v % 128];
      v := v / 128;
    }
    out := out + [v];
  }

  /** The low seven bits of a byte, shifted to their place. */
  function Digit(b: Byte, place: nat): nat { b % 128 * place }

  /** The three-path decoder gives what the plain one gives, on every input. */
  method DecodeVarU64(data: Bytes) returns (r: Result<Decoded<nat>>)
    ensures r == PlainDecode(data)
  {
    hide Value, Run, Pow128, Digit;
    PartialStart(data);
    if |data| > 0 {
      if data[0] < 0x80 {
        PartialStep(data, 0, 0);
        return Ok(Decoded(data[0], data[1..]));
      }
      if |data| >= 10 || data[|data| - 1] < 0x80 {
        var res: nat, place: nat := 0, 1;
        for i := 0 to 9
          invariant i <= |data| && place == Pow128(i) && Partial(data, i, res)
        {
          var b := data[i];
          PartialStep(data, i, res);
          res := res + Digit(b, place);
          if b < 0x80 {
            return Ok(Decoded(res, data[i + 1..]));
          }
          place := place * 128;
        }
        var b := data[9];
        PartialStep(data, 9, res);
        if b <= 1 {
          return Ok(Decoded(res + Digit(b, place), data[10..]));
        }
        return Err(Overflow);
      }
    }
    var res: nat, place: nat := 0, 1;
    for i := 0 to |data|
      invariant place == Pow128(i) && Partial(data, i, res)
    {
      var b := data[i];
      PartialStep(data, i, res);
      res := res + Digit(b, place);
      if b < 0x80 {
        return Ok(Decoded(res, data[i + 1..]));
      }
      place := place * 128;
    }
    RunAtLeast(data, |data|);
    return Err(UnexpectedEof);
  }

  /** After `i` rounds of a decoding loop. */
  ghost predicate Partial(data: Bytes, i: nat, res: nat)
    requires i <= |data|
  {
    (forall j :: 0 <= j < i ==> data[j] >= 128) && res == Value(data[..i])
  }

  lemma PartialStart(data: Bytes)
    ensures Partial(data, 0, 0) && Pow128(0) == 1
  {
  }

  lemma PartialStep(data: Bytes, i: nat, res: nat)
    requires i < |data| && Partial(data, i, res)
    ensures i == 0 ==> Digit(data[0], 1) == data[0] % 128
    ensures res + Digit(data[i], Pow128(i)) == Value(data[..i + 1])
    ensures Pow128(i + 1) == 128 * Pow128(i)
    ensures if data[i] < 128 then Run(data) == i else Run(data) > i
  {
    hide Value, Run;
    ValueSnoc(data, i);
    if data[i] < 128 { RunExactly(data, i); } else { RunAtLeast(data, i + 1); }
  }

  lemma {:induction false} ValueSnoc(s: Bytes, i: nat)
    requires i < |s|
    ensures Value(s[..i + 1]) == Value(s[..i]) + (s[i] % 128) * Pow128(i)
    decreases i
  {
    if i == 0 {
      assert s[..1] == [s[0]] && Value(s[..1][1..]) == 0;
    } else {
      ValueSnoc(s[1..], i - 1);
      assert s[..i + 1][1..] == s[1..][..i] && s[..i][1..] == s[1..][..i - 1];
      var x, p: nat := s[i] % 128, Pow128(i - 1);
      assert 128 * (x * p) == x * Pow128(i);
    }
  }

  lemma {:induction false} RunAtLeast(s: Bytes, i: nat)
    requires i <= |s| && forall j :: 0 <= j < i ==> s[j] >= 128
    ensures Run(s) >= i
    decreases i
  {
    if i > 0 {
      RunAtLeast(s[1..], i - 1);
    }
  }

  lemma {:induction false} RunExactly(s: Bytes, i: nat)
    requires i < |s| && s[i] < 128 && forall j :: 0 <= j < i ==> s[j] >= 128
    ensures Run(s) == i
    decreases i
  {
    if i > 0 {
      RunExactly(s[1..], i - 1);
    }
  }

  lemma {:induction false} RunIs(s: Bytes)
    ensures forall j :: 0 <= j < Run(s) ==> s[j] >= 128
    ensures Run(s) < |s| ==> s[Run(s)] < 128
    decreases |s|
  {
    if s != [] && s[0] >= 128 {
      RunIs(s[1..]);
    }
  }

  /** The encoding of `v`: its length, its bytes and its value. */
  lemma {:induction false} VarU64Shape(v: nat, n: nat)
    requires n > 0 && v < Pow128(n)
    ensures var s := VarU64(v);
            && 0 < |s| <= n && s[|s| - 1] < 128 && Value(s) == v
            && (forall j :: 0 <= j < |s| - 1 ==> s[j] >= 128)
            && (|s| > 1 ==> s[|s| - 1] != 0)
    decreases n
  {
    var s := VarU64(v);
    if v < 128 {
      assert s == [v] && Value(s[1..]) == 0;
    } else {
      assert Pow128(n) == 128 * Pow128(n - 1);
      assert n > 1;
      VarU64Shape(v / 128, n - 1);
      assert s[1..] == VarU64(v / 128);
    }
  }

  /** A number just below twice a power of 128 keeps its last byte at most one. */
  lemma {:induction false} VarU64Top(v: nat, n: nat)
    requires v < 2 * Pow128(n)
    ensures var s := VarU64(v); 0 < |s| <= n + 1 && (|s| == n + 1 ==> s[n] <= 1)
    decreases n
  {
    if v >= 128 {
      assert n > 0 && Pow128(n) == 128 * Pow128(n - 1);
      VarU64Top(v / 128, n - 1);
    }
  }

  lemma Pow128Nine()
    ensures Pow128(9) == TWO_63 && Pow128(10) == 128 * TWO_63
  {
    assert Pow128(3) == 0x20_0000;
    assert Pow128(6) == 0x400_0000_0000 by { assert Pow128(5) == 128 * Pow128(4); assert Pow128(4) == 128 * Pow128(3); }
    assert Pow128(7) == 128 * Pow128(6);
    assert Pow128(8) == 128 * Pow128(7);
  }

  /** Encoding then decoding gives back the number and whatever follows it, in at most ten
      bytes. */
  lemma VarU64RoundTrip(v: U64, rest: Bytes)
    ensures |VarU64(v)| <= 10
    ensures PlainDecode(VarU64(v) + rest) == Ok(Decoded(v, rest))
  {
    Pow128Nine();
    var s := VarU64(v);
    VarU64Shape(v, 10);
    VarU64Top(v, 9);
    RunExactly(s + rest, |s| - 1);
    assert (s + rest)[..|s|] == s && (s + rest)[|s|..] == rest;
  }

  lemma {:induction false} ValueBelow(s: Bytes)
    ensures Value(s) < Pow128(|s|)
    decreases |s|
  {
    if s != [] { ValueBelow(s[1..]); }
  }

  /** What is decoded fits in 64 bits, so that no shift loses a bit. */
  lemma DecodedFits(s: Bytes)
    requires PlainDecode(s).Ok?
    ensures PlainDecode(s).value.value < TWO_64
  {
    var n := Run(s);
    Pow128Nine();
    ValueSnoc(s, n);
    ValueBelow(s[..n]);
    ValueBelow(s[..n + 1]);
    if n < 9 { PowMonotone(n + 1, 9); }
  }

  lemma {:induction false} PowMonotone(m: nat, n: nat)
    requires m <= n
    ensures Pow128(m) <= Pow128(n)
    decreases n - m
  {
    if m < n { PowMonotone(m + 1, n); }
  }

  /** Bytes that decode to `v` are the encoding of `v` exactly when they are as short as can
      be: one byte, or a last byte that is not zero. The decoder accepts longer forms too. */
  lemma DecodedIsEncoded(s: Bytes)
    requires PlainDecode(s).Ok?
    ensures var d, n := PlainDecode(s).value, Run(s);
            && d.rest == s[n + 1..]
            && (VarU64(d.value) + d.rest == s <==> n == 0 || s[n] != 0)
  {
    var d, n := PlainDecode(s).value, Run(s);
    RunIs(s);
    if n == 0 || s[n] != 0 {
      ShortestIsEncoding(s[..n + 1]);
      assert s[..n + 1] + s[n + 1..] == s;
    } else {
      VarU64Shape(d.value, n + 1) by { ValueBelow(s[..n + 1]); }
      var e := VarU64(d.value);
      assert |e| == n + 1 ==> (e + d.rest)[n] == e[n] != 0;
    }
  }

  lemma {:induction false} RunConcat(s: Bytes, more: Bytes)
    ensures Run(s) < |s| ==> Run(s + more) == Run(s)
    ensures Run(s) == |s| ==> Run(s + more) >= |s|
  {
    RunIs(s);
    if Run(s) < |s| {
      RunExactly(s + more, Run(s));
    } else {
      RunAtLeast(s + more, |s|);
    }
  }

  /** Refused bytes are called incomplete exactly if more bytes could make them a number. */
  lemma EofExactly(s: Bytes)
    ensures PlainDecode(s) == Err(UnexpectedEof) <==>
              PlainDecode(s).Err? && exists more: Bytes :: PlainDecode(s + more).Ok?
  {
    RunIs(s);
    if PlainDecode(s) == Err(UnexpectedEof) {
      RunExactly(s + [0], |s|);
      assert PlainDecode(s + [0]).Ok?;
    } else if PlainDecode(s).Err? {
      forall more: Bytes
        ensures PlainDecode(s + more).Err?
      {
        RunConcat(s, more);
      }
    }
  }

  /** Two bytes that decode to zero, which is encoded in one. */
  lemma LongZeroIsAccepted()
    ensures PlainDecode([0x80, 0x00]) == Ok(Decoded(0, []))
    ensures VarU64(0) == [0x00]
  {
    var s: Bytes := [0x80, 0x00];
    assert Run(s[1..]) == 0 && Run(s) == 1;
    assert s[..2] == s && s[2..] == [];
    assert Value(s[1..][1..]) == 0 && Value(s[1..]) == 0 && Value(s) == 0;
  }

  lemma SplitDigit(digit: nat, more: nat)
    requires digit < 128
    ensures (digit + 128 * more) / 128 == more && (digit + 128 * more) % 128 == digit
  {
  }

  lemma {:induction false} ShortestIsEncoding(s: Bytes)
    requires s != [] && s[|s| - 1] < 128 && (forall j :: 0 <= j < |s| - 1 ==> s[j] >= 128)
    requires |s| == 1 || s[|s| - 1] != 0
    ensures VarU64(Value(s)) == s && (s[|s| - 1] != 0 ==> Value(s) > 0)
    decreases |s|
  {
    if |s| == 1 {
      assert Value(s[1..]) == 0;
    } else {
      ShortestIsEncoding(s[1..]);
      SplitDigit(s[0] % 128, Value(s[1..]));
    }
  }

  // -------------------------------------------------------------------- zigzag

  /** Signed numbers of small magnitude become small unsigned ones: 0, -1, 1, -2, … */
  function ZigZag(v: I64): U64 {
    if v >= 0 then 2 * v else -2 * v - 1
  }

  function UnZigZag(u: U64): I64 {
    if u % 2 == 0 then u / 2 else -(u / 2) - 1
  }

  lemma ZigZagIsBijection(v: I64, u: U64)
    ensures UnZigZag(ZigZag(v)) == v && ZigZag(UnZigZag(u)) == u
  {
  }

  /** A 64-bit pattern read as a signed number. */
  function AsSigned(u: U64): I64 {
    if u < TWO_63 then u else u - TWO_64
  }

  method EncodeVarI64(v: I64) returns (out: Bytes)
    ensures out == VarU64(ZigZag(v))
  {
    assert v % TWO_64 == if v < 0 then v + TWO_64 else v;
    var vx: U64 := v % TWO_64 * 2 % TWO_64;
    assert vx == if v < 0 then 2 * v + TWO_64 else 2 * v;
    if v < 0 {
      vx := TWO_64 - 1 - vx;
    }
    out := EncodeVarU64(vx);
  }

  method DecodeVarI64(data: Bytes) returns (r: Result<Decoded<I64>>)
    ensures PlainDecode(data).Err? ==> r == Err(PlainDecode(data).error)
    ensures PlainDecode(data).Ok? ==>
              r.Ok? && r.value.rest == PlainDecode(data).value.rest
              && ZigZag(r.value.value) == PlainDecode(data).value.value
  {
    var d := DecodeVarU64(data);
    match d
    case Err(e) => return Err(e);
    case Ok(x) =>
      DecodedFits(data);
      var vx: U64 := x.value / 2;
      if x.value % 2 == 0 {
        return Ok(Decoded(AsSigned(vx), x.rest));
      } else {
        return Ok(Decoded(AsSigned(TWO_64 - 1 - vx), x.rest));
      }
  }

  // -------------------------------------------------------------- fixed width

  function Pow256(n: nat): (p: nat)
    ensures p > 0
  {
    if n == 0 then 1 else 256 * Pow256(n - 1)
  }

  function BigEndian(v: nat, n: nat): (s: Bytes)
    ensures |s| == n
  {
    if n == 0 then [] else BigEndian(v / 256, n - 1) + [v % 256]
  }

  function FromBigEndian(s: Bytes): nat {
    if s == [] then 0 else FromBigEndian(s[..|s| - 1]) * 256 + s[|s| - 1]
  }

  function LittleEndian(v: nat, n: nat): (s: Bytes)
    ensures |s| == n
  {
    if n == 0 then [] else [v % 256] + LittleEndian(v / 256, n - 1)
  }

  function FromLittleEndian(s: Bytes): nat {
    if s == [] then 0 else s[0] + 256 * FromLittleEndian(s[1..])
  }

  lemma {:induction false} FixedRoundTrip(v: nat, n: nat)
    requires v < Pow256(n)
    ensures FromBigEndian(BigEndian(v, n)) == v && FromLittleEndian(LittleEndian(v, n)) == v
    decreases n
  {
    if n > 0 {
      FixedRoundTrip(v / 256, n - 1);
      assert BigEndian(v, n)[..n - 1] == BigEndian(v / 256, n - 1);
      assert LittleEndian(v, n)[1..] == LittleEndian(v / 256, n - 1);
    }
  }

  /** Every string of bytes is the fixed-width form of the number it is read as. */
  lemma {:induction false} BigRoundBack(s: Bytes)
    ensures FromBigEndian(s) < Pow256(|s|) && BigEndian(FromBigEndian(s), |s|) == s
    decreases |s|
  {
    if s != [] {
      var n := |s| - 1;
      BigRoundBack(s[..n]);
      TopDigit(FromBigEndian(s[..n]), s[n]);
      assert s == s[..n] + [s[n]];
    }
  }

  lemma {:induction false} LittleRoundBack(s: Bytes)
    ensures FromLittleEndian(s) < Pow256(|s|) && LittleEndian(FromLittleEndian(s), |s|) == s
    decreases |s|
  {
    if s != [] {
      LittleRoundBack(s[1..]);
      TopDigit(FromLittleEndian(s[1..]), s[0]);
      assert s == [s[0]] + s[1..];
    }
  }

  lemma TopDigit(q: nat, x: Byte)
    ensures (q * 256 + x) / 256 == q && (q * 256 + x) % 256 == x
  {
  }

  /** Byte-wise order of strings of one length. */
  predicate BytesLess(a: Bytes, b: Bytes)
    requires |a| == |b|
  {
    a != [] && var n := |a| - 1; BytesLess(a[..n], b[..n]) || (a[..n] == b[..n] && a[n] < b[n])
  }

  lemma DigitOrder(v: nat, w: nat)
    ensures v < w <==> v / 256 < w / 256 || (v / 256 == w / 256 && v % 256 < w % 256)
  {
  }

  lemma BytesLessSnoc(a: Bytes, b: Bytes, x: Byte, y: Byte)
    requires |a| == |b|
    ensures BytesLess(a + [x], b + [y]) <==> BytesLess(a, b) || (a == b && x < y)
  {
    assert (a + [x])[..|a|] == a && (b + [y])[..|b|] == b;
  }

  lemma {:induction false} BigEndianOrder(v: nat, w: nat, n: nat)
    requires v < Pow256(n) && w < Pow256(n)
    ensures v < w <==> BytesLess(BigEndian(v, n), BigEndian(w, n))
    decreases n, 1
  {
    if n > 0 {
      var q, q' := v / 256, w / 256;
      assert q < Pow256(n - 1) && q' < Pow256(n - 1);
      assert v < w <==> q < q' || (q == q' && v % 256 < w % 256) by { DigitOrder(v, w); }
      BigEndianStep(q, v % 256, q', w % 256, n - 1);
    }
  }

  lemma {:induction false} BigEndianStep(q: nat, x: Byte, q': nat, y: Byte, n: nat)
    requires q < Pow256(n) && q' < Pow256(n)
    ensures BytesLess(BigEndian(q, n) + [x], BigEndian(q', n) + [y]) <==> q < q' || (q == q' && x < y)
    decreases n, 2
  {
    hide Pow256, BytesLess, FromBigEndian, FromLittleEndian, LittleEndian;
    BigEndianOrder(q, q', n);
    BytesLessSnoc(BigEndian(q, n), BigEndian(q', n), x, y);
    FixedRoundTrip(q, n);
    FixedRoundTrip(q', n);
  }

  /** Flips the sign bit of the 64-bit pattern. */
  function OrderEncodeI64(v: I64): U64 {
    var u := v % TWO_64;
    if u >= TWO_63 then u - TWO_63 else u + TWO_63
  }

  function OrderDecodeI64(u: U64): I64 {
    AsSigned(if u >= TWO_63 then u - TWO_63 else u + TWO_63)
  }

  lemma Pow256Eight()
    ensures Pow256(8) == TWO_64 && Pow256(4) == 0x1_0000_0000
  {
    assert Pow256(2) == 0x1_0000;
    assert Pow256(4) == 256 * Pow256(3);
    assert Pow256(6) == 256 * Pow256(5);
    assert Pow256(7) == 256 * Pow256(6);
  }

  lemma OrderEncodeIs(v: I64)
    ensures OrderEncodeI64(v) == v + TWO_63 && OrderDecodeI64(OrderEncodeI64(v)) == v
  {
    assert v % TWO_64 == if v < 0 then v + TWO_64 else v;
  }

  /** The encoded form of signed numbers sorts, byte by byte, as the numbers do, and gives
      them back. */
  lemma OrderPreserved(v: I64, w: I64)
    ensures v < w <==> BytesLess(BigEndian(OrderEncodeI64(v), 8), BigEndian(OrderEncodeI64(w), 8))
    ensures FromBigEndian(BigEndian(OrderEncodeI64(v), 8)) == OrderEncodeI64(v) && OrderDecodeI64(OrderEncodeI64(v)) == v
  {
    OrderEncodeIs(v);
    OrderEncodeIs(w);
    var x: nat, y: nat := OrderEncodeI64(v), OrderEncodeI64(w);
    assert x < Pow256(8) && y < Pow256(8) by { Pow256Eight(); }
    BigEndianOrder(x, y, 8);
    FixedRoundTrip(x, 8);
  }
}
