/** Strings as sequences of UTF-16 code units, their code points, and their UTF-8 encoding. */
module Utf16 {
  import opened Prelude

  type Unit = u: int | 0 <= u < 0x1_0000
  type Text = seq<Unit>

  predicate IsHigh(u: Unit) { 0xD800 <= u <= 0xDBFF }

  predicate IsLow(u: Unit) { 0xDC00 <= u <= 0xDFFF }

  /** How many units the first code point takes: two for a surrogate pair. */
  function FirstWidth(s: Text): (n: nat)
    requires s != []
    ensures 1 <= n <= 2 && n <= |s|
  {
    if IsHigh(s[0]) && |s| > 1 && IsLow(s[1]) then 2 else 1
  }

  function PairPoint(high: int, low: int): int { 0x1_0000 + (high - 0xD800) * 0x400 + (low - 0xDC00) }

  /** The first code point; a lone surrogate stands for itself. */
  function FirstPoint(s: Text): (point: int)
    requires s != []
    ensures 0 <= point <= 0x10_FFFF
  {
    if FirstWidth(s) == 2 then PairPoint(s[0], s[1]) else s[0]
  }

  predicate IsSurrogate(point: int) { 0xD800 <= point <= 0xDFFF }

  /** TextEncoder: a lone surrogate becomes the three bytes of the replacement character. */
  function Utf8Point(point: int): (bytes: seq<Byte>)
    requires 0 <= point <= 0x10_FFFF
    ensures |bytes| == if point < 0x80 then 1 else if point < 0x800 then 2 else if point < 0x1_0000 then 3 else 4
  {
    if point < 0x80 then [point]
    else if point < 0x800 then [0xC0 + point / 0x40, 0x80 + point % 0x40]
    else if IsSurrogate(point) then [0xEF, 0xBF, 0xBD]
    else if point < 0x1_0000 then [0xE0 + point / 0x1000, 0x80 + point / 0x40 % 0x40, 0x80 + point % 0x40]
    else [0xF0 + point / 0x4_0000, 0x80 + point / 0x1000 % 0x40, 0x80 + point / 0x40 % 0x40, 0x80 + point % 0x40]
  }

  function Utf8(s: Text): seq<Byte> {
    if s == [] then [] else Utf8Point(FirstPoint(s)) + Utf8(s[FirstWidth(s)..])
  }

  /** Nothing after the text can turn its last unit into half of a surrogate pair. */
  predicate Closed(s: Text) { s == [] || !IsHigh(s[|s| - 1]) }

  /** The first code point of a text is not changed by what follows, unless it is half of a pair. */
  lemma FirstOfConcat(a: Text, b: Text)
    requires a != [] && (Closed(a) || b == [] || !IsLow(b[0]))
    ensures FirstWidth(a + b) == FirstWidth(a) && FirstPoint(a + b) == FirstPoint(a)
    ensures (a + b)[FirstWidth(a)..] == a[FirstWidth(a)..] + b
  {
  }

  lemma Utf8Unfold(s: Text)
    requires s != []
    ensures Utf8(s) == Utf8Point(FirstPoint(s)) + Utf8(s[FirstWidth(s)..])
  {
  }

  /** The encoding of a concatenation, unless it joins two halves of a surrogate pair. */
  lemma {:induction false} Utf8Concat(a: Text, b: Text)
    requires Closed(a) || b == [] || !IsLow(b[0])
    ensures Utf8(a + b) == Utf8(a) + Utf8(b)
    decreases |a|
  {
    if a == [] {
      assert a + b == b;
    } else {
      var rest := a[FirstWidth(a)..];
      FirstOfConcat(a, b);
      Utf8Concat(rest, b);
      Utf8Unfold(a);
      Utf8Unfold(a + b);
      Associative(Utf8Point(FirstPoint(a)), Utf8(rest), Utf8(b));
    }
  }

  lemma Associative(x: seq<Byte>, y: seq<Byte>, z: seq<Byte>)
    ensures x + (y + z) == x + y + z
  {
  }

  predicate IsAscii(s: Text) { forall i :: 0 <= i < |s| ==> s[i] < 0x80 }

  lemma {:induction false} Utf8OfAscii(s: Text)
    requires IsAscii(s)
    ensures |Utf8(s)| == |s| && Closed(s)
  {
    if s != [] {
      Utf8OfAscii(s[1..]);
    }
  }

  lemma ClosedConcat(a: Text, b: Text)
    requires Closed(a) && Closed(b)
    ensures Closed(a + b)
  {
  }

  /** The length of the encoding, counted unit by unit. */
  function Utf8Length(s: Text): nat { |Utf8(s)| }

  /** utf8ByteLength. */
  method CountUtf8(value: Text) returns (bytes: nat)
    ensures bytes == Utf8Length(value)
  {
    bytes := 0;
    var index := 0;
    assert value[0..] == value;
    while index < |value|
      invariant index <= |value|
      invariant bytes + Utf8Length(value[index..]) == Utf8Length(value)
    {
      var code := value[index];
      var rest := value[index..];
      assert rest[FirstWidth(rest)..] == value[index + FirstWidth(rest)..];
      if code < 0x80 {
        bytes := bytes + 1;
      } else if code < 0x800 {
        bytes := bytes + 2;
      } else if 0xD800 <= code && code <= 0xDBFF && index + 1 < |value| {
        var next := value[index + 1];
        if 0xDC00 <= next && next <= 0xDFFF {
          bytes := bytes + 4;
          index := index + 1;
        } else {
          bytes := bytes + 3;
        }
      } else {
        bytes := bytes + 3;
      }
      index := index + 1;
    }
  }
}
