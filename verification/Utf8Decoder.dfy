/** A strict decoder of UTF-8, as section 4 of RFC 3629 defines it, and the encoder it undoes. */
module Utf8Decoder {
  import opened Prelude
  import opened Utf16

  predicate IsTail(b: Byte) { 0x80 <= b <= 0xBF }

  /** The six bits a continuation byte carries. */
  function Tail(b: seq<Byte>, i: nat): (n: int)
    requires i < |b| && IsTail(b[i])
    ensures 0 <= n < 0x40
  {
    var tail: int := b[i];
    tail - 0x80
  }

  /** The code point at the start of a byte string and how many bytes it takes. */
  function FirstDecoded(b: seq<Byte>): (r: Option<(int, nat)>)
    ensures r.Some? ==> 1 <= r.value.1 <= |b| && 0 <= r.value.0 <= 0x10_FFFF && !IsSurrogate(r.value.0)
  {
    if b == [] then None
    else
      var lead: int := b[0];
      if lead < 0x80 then Some((lead, 1))
      else if 0xC2 <= lead <= 0xDF && |b| >= 2 && IsTail(b[1]) then Some(((lead - 0xC0) * 0x40 + Tail(b, 1), 2))
      else if 0xE0 <= lead <= 0xEF && |b| >= 3 && IsTail(b[1]) && IsTail(b[2]) then
        var point := (lead - 0xE0) * 0x1000 + Tail(b, 1) * 0x40 + Tail(b, 2);
        if point < 0x800 || IsSurrogate(point) then None else Some((point, 3))
      else if 0xF0 <= lead <= 0xF4 && |b| >= 4 && IsTail(b[1]) && IsTail(b[2]) && IsTail(b[3]) then
        var point := (lead - 0xF0) * 0x4_0000 + Tail(b, 1) * 0x1000 + Tail(b, 2) * 0x40 + Tail(b, 3);
        if point < 0x1_0000 || point > 0x10_FFFF then None else Some((point, 4))
      else None
  }

  /** The units of one code point. */
  function UnitsOf(point: int): Text
    requires 0 <= point <= 0x10_FFFF
  {
    if point < 0x1_0000 then [point]
    else [0xD800 + (point - 0x1_0000) / 0x400, 0xDC00 + (point - 0x1_0000) % 0x400]
  }

  function Decode(b: seq<Byte>): Option<Text>
    decreases |b|
  {
    if b == [] then Some([])
    else
      match FirstDecoded(b)
      case None => None
      case Some((point, n)) =>
        match Decode(b[n..])
        case None => None
        case Some(rest) => Some(UnitsOf(point) + rest)
  }

  /** No half of a surrogate pair stands alone. */
  predicate WellFormed(s: Text)
    decreases |s|
  {
    s == [] || (!IsSurrogate(FirstPoint(s)) && WellFormed(s[FirstWidth(s)..]))
  }

  lemma PointDecodes(point: int, rest: seq<Byte>)
    requires 0 <= point <= 0x10_FFFF && !IsSurrogate(point)
    ensures FirstDecoded(Utf8Point(point) + rest) == Some((point, |Utf8Point(point)|))
  {
    var b := Utf8Point(point) + rest;
    if point < 0x80 {
    } else if point < 0x800 {
      TwoDigits(point, 0x40);
    } else if point < 0x1_0000 {
      ThreeDigits(point);
    } else {
      FourDigits(point);
    }
  }

  lemma TwoDigits(n: int, base: int)
    requires 0 <= n && 0 < base
    ensures n / base * base + n % base == n
  {
  }

  lemma ThreeDigits(n: int)
    requires 0 <= n
    ensures n / 0x1000 * 0x1000 + n / 0x40 % 0x40 * 0x40 + n % 0x40 == n
  {
    assert n / 0x40 / 0x40 == n / 0x1000;
  }

  lemma FourDigits(n: int)
    requires 0 <= n
    ensures n / 0x4_0000 * 0x4_0000 + n / 0x1000 % 0x40 * 0x1000 + n / 0x40 % 0x40 * 0x40 + n % 0x40 == n
  {
    assert n / 0x1000 / 0x40 == n / 0x4_0000;
    ThreeDigits(n);
  }

  lemma UnitsOfFirst(s: Text)
    requires s != []
    ensures UnitsOf(FirstPoint(s)) == s[..FirstWidth(s)]
  {
    if FirstWidth(s) == 2 {
      PairSplits(s[0], s[1]);
    }
  }

  lemma PairSplits(high: int, low: int)
    requires 0xD800 <= high <= 0xDBFF && 0xDC00 <= low <= 0xDFFF
    ensures var n := PairPoint(high, low) - 0x1_0000; n / 0x400 == high - 0xD800 && n % 0x400 == low - 0xDC00
  {
  }

  /** The encoding of a text begins with that of its first code point. */
  lemma StartDecodes(s: Text) returns (bytes: seq<Byte>, point: int)
    requires s != [] && !IsSurrogate(FirstPoint(s))
    ensures 0 <= point <= 0x10_FFFF && UnitsOf(point) == s[..FirstWidth(s)]
    ensures bytes != [] && Utf8(s) == bytes + Utf8(s[FirstWidth(s)..])
    ensures FirstDecoded(bytes + Utf8(s[FirstWidth(s)..])) == Some((point, |bytes|))
  {
    point := FirstPoint(s);
    bytes := Utf8Point(point);
    Utf8Unfold(s);
    PointDecodes(point, Utf8(s[FirstWidth(s)..]));
    UnitsOfFirst(s);
  }

  lemma DecodeStep(bytes: seq<Byte>, others: seq<Byte>, point: int, units: Text, rest: Text)
    requires 0 <= point <= 0x10_FFFF && bytes != [] && FirstDecoded(bytes + others) == Some((point, |bytes|))
    requires Decode(others) == Some(rest) && units == UnitsOf(point)
    ensures Decode(bytes + others) == Some(units + rest)
  {
    assert (bytes + others)[|bytes|..] == others;
  }

  /** Decoding undoes encoding for every text without lone surrogates. */
  lemma {:induction false} DecodesBack(s: Text)
    requires WellFormed(s)
    ensures Decode(Utf8(s)) == Some(s)
    decreases |s|
  {
    if s != [] {
      var n := FirstWidth(s);
      DecodesBack(s[n..]);
      var bytes, point := StartDecodes(s);
      DecodeStep(bytes, Utf8(s[n..]), point, s[..n], s[n..]);
      assert s == s[..n] + s[n..];
    }
  }

  lemma {:induction false} WellFormedConcat(a: Text, b: Text)
    requires WellFormed(a) && WellFormed(b)
    ensures WellFormed(a + b)
    decreases |a|
  {
    if a == [] {
      assert a + b == b;
    } else {
      EndsClosed(a);
      FirstOfConcat(a, b);
      WellFormedConcat(a[FirstWidth(a)..], b);
    }
  }

  lemma {:induction false} EndsClosed(s: Text)
    requires WellFormed(s)
    ensures Closed(s)
    decreases |s|
  {
    if s != [] {
      EndsClosed(s[FirstWidth(s)..]);
    }
  }

  lemma {:induction false} AsciiIsWellFormed(s: Text)
    requires IsAscii(s)
    ensures WellFormed(s)
  {
    if s != [] {
      AsciiIsWellFormed(s[1..]);
    }
  }
}
