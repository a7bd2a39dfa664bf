/** Canonical base64 (section 4 of RFC 4648, with the zero pad bits of its section 3.5). */
module Base64 {
  import opened Prelude
  import opened Utf16

  const PAD: Unit := 0x3D

  /** base64Index: the value of a character, -1 outside the alphabet. */
  function Index(c: Unit): (n: int)
    ensures -1 <= n < 64
  {
    if 65 <= c <= 90 then c - 65
    else if 97 <= c <= 122 then c - 71
    else if 48 <= c <= 57 then c + 4
    else if c == 0x2B then 62
    else if c == 0x2F then 63
    else -1
  }

  function Symbol(n: int): (c: Unit)
    requires 0 <= n < 64
    ensures Index(c) == n && c != PAD
  {
    if n < 26 then n + 65 else if n < 52 then n + 71 else if n < 62 then n - 4 else if n == 62 then 0x2B else 0x2F
  }

  /** Table 1 of RFC 4648: A to Z, a to z, 0 to 9, plus and slash, in this order. */
  lemma SymbolsInOrder(n: nat)
    ensures Symbol(0) == 'A' as int && Symbol(25) == 'Z' as int && Symbol(26) == 'a' as int && Symbol(51) == 'z' as int
    ensures Symbol(52) == '0' as int && Symbol(61) == '9' as int && Symbol(62) == '+' as int && Symbol(63) == '/' as int
    ensures n < 25 || 26 <= n < 51 || 52 <= n < 61 ==> Symbol(n + 1) == Symbol(n) + 1
  {
  }

  predicate IsSymbol(c: Unit) { Index(c) >= 0 }

  lemma SymbolOfIndex(c: Unit)
    requires IsSymbol(c)
    ensures Symbol(Index(c)) == c
  {
  }

  // ----- the predicate of the program -----

  predicate AllSymbols(s: Text) { forall i :: 0 <= i < |s| ==> IsSymbol(s[i]) }

  /** The regular expression: groups of four symbols, the last one perhaps padded. */
  predicate Matches(s: Text) {
    || s == []
    || (|s| >= 4 && AllSymbols(s[..4]) && Matches(s[4..]))
    || (|s| == 4 && AllSymbols(s[..2]) && s[2] == PAD && s[3] == PAD)
    || (|s| == 4 && AllSymbols(s[..3]) && s[3] == PAD)
  }

  predicate EndsWith(s: Text, end: Text) { |end| <= |s| && s[|s| - |end|..] == end }

  /** hasCanonicalBase64Padding: the bits under the padding are zero. */
  predicate PaddingIsCanonical(s: Text)
    requires |s| % 4 == 0
  {
    if EndsWith(s, [PAD, PAD]) then Index(s[|s| - 3]) % 16 == 0
    else if EndsWith(s, [PAD]) then Index(s[|s| - 2]) % 4 == 0
    else true
  }

  /** isCanonicalBase64. */
  predicate Canonical(s: Text) { s != [] && |s| % 4 == 0 && Matches(s) && PaddingIsCanonical(s) }

  /** base64DecodedByteLength. */
  function DecodedLength(s: Text): int {
    |s| / 4 * 3 - (if EndsWith(s, [PAD, PAD]) then 2 else if EndsWith(s, [PAD]) then 1 else 0)
  }

  /** isBase64EncodedBytes. */
  predicate EncodesBytes(s: Text, decodedBytes: int) {
    |s| % 4 == 0 && Matches(s) && PaddingIsCanonical(s) && DecodedLength(s) == decodedBytes
  }

  /** base64EncodedLength. */
  function EncodedLength(n: nat): nat { (n + 2) / 3 * 4 }

  // ----- the encoding itself -----

  /** Three bytes as four symbols. */
  function Group(x: Byte, y: Byte, z: Byte): Text {
    [Symbol(x / 4), Symbol(x % 4 * 16 + y / 16), Symbol(y % 16 * 4 + z / 64), Symbol(z % 64)]
  }

  function Encode(bytes: seq<Byte>): Text {
    if bytes == [] then []
    else if |bytes| == 1 then Group(bytes[0], 0, 0)[..2] + [PAD, PAD]
    else if |bytes| == 2 then Group(bytes[0], bytes[1], 0)[..3] + [PAD]
    else Group(bytes[0], bytes[1], bytes[2]) + Encode(bytes[3..])
  }

  /** Examples of section 10 of RFC 4648: "foo", "fo" and "f". */
  lemma Rfc4648Examples()
    ensures Encode([0x66, 0x6F, 0x6F]) == [0x5A, 0x6D, 0x39, 0x76]
    ensures Encode([0x66, 0x6F]) == [0x5A, 0x6D, 0x38, PAD]
    ensures Encode([0x66]) == [0x5A, 0x67, PAD, PAD]
  {
    assert [0x66, 0x6F, 0x6F][3..] == [];
  }

  function Low8(n: int): Byte { n % 256 }

  /** Four indices as three bytes. */
  function Ungroup(a: int, b: int, c: int, d: int): seq<Byte> {
    [Low8(a * 4 + b / 16), Low8(b % 16 * 16 + c / 4), Low8(c % 4 * 64 + d)]
  }

  function Decode(s: Text): seq<Byte> {
    if |s| < 4 then []
    else if s[2] == PAD then Ungroup(Index(s[0]), Index(s[1]), 0, 0)[..1]
    else if s[3] == PAD then Ungroup(Index(s[0]), Index(s[1]), Index(s[2]), 0)[..2]
    else Ungroup(Index(s[0]), Index(s[1]), Index(s[2]), Index(s[3])) + Decode(s[4..])
  }

  lemma ThreeBytes(x: Byte, y: Byte, z: Byte)
    ensures var a, b, c, d := x / 4, x % 4 * 16 + y / 16, y % 16 * 4 + z / 64, z % 64;
            && 0 <= a < 64 && 0 <= b < 64 && 0 <= c < 64 && 0 <= d < 64
            && a * 4 + b / 16 == x && b % 16 * 16 + c / 4 == y && c % 4 * 64 + d == z
  {
  }

  lemma FourSymbols(a: int, b: int, c: int, d: int)
    requires 0 <= a < 64 && 0 <= b < 64 && 0 <= c < 64 && 0 <= d < 64
    ensures var x, y, z := a * 4 + b / 16, b % 16 * 16 + c / 4, c % 4 * 64 + d;
            && 0 <= x < 256 && 0 <= y < 256 && 0 <= z < 256
            && x / 4 == a && x % 4 * 16 + y / 16 == b && y % 16 * 4 + z / 64 == c && z % 64 == d
  {
  }

  /** The indices of four symbols, put together as bytes. */
  lemma UngroupIs(a: int, b: int, c: int, d: int, x: Byte, y: Byte, z: Byte)
    requires a * 4 + b / 16 == x && b % 16 * 16 + c / 4 == y && c % 4 * 64 + d == z
    ensures Ungroup(a, b, c, d) == [x, y, z]
  {
  }

  /** Spelled with symbols and read again, indices give the same bytes. */
  lemma SpelledThenRead(a: int, b: int, c: int, d: int, bytes: seq<Byte>)
    requires 0 <= a < 64 && 0 <= b < 64 && 0 <= c < 64 && 0 <= d < 64 && Ungroup(a, b, c, d) == bytes
    ensures var g := [Symbol(a), Symbol(b), Symbol(c), Symbol(d)];
            AllSymbols(g) && PAD !in g && Ungroup(Index(g[0]), Index(g[1]), Index(g[2]), Index(g[3])) == bytes
  {
  }

  lemma GroupThenUngroup(x: Byte, y: Byte, z: Byte)
    ensures var g := Group(x, y, z);
            && AllSymbols(g) && PAD !in g
            && Ungroup(Index(g[0]), Index(g[1]), Index(g[2]), Index(g[3])) == [x, y, z]
  {
    ThreeBytes(x, y, z);
    UngroupIs(x / 4, x % 4 * 16 + y / 16, y % 16 * 4 + z / 64, z % 64, x, y, z);
    SpelledThenRead(x / 4, x % 4 * 16 + y / 16, y % 16 * 4 + z / 64, z % 64, [x, y, z]);
  }

  /** Missing bytes leave zero bits. */
  lemma GroupEndsInZeros(x: Byte, y: Byte)
    ensures Index(Group(x, 0, 0)[1]) % 16 == 0 && Index(Group(x, 0, 0)[2]) == 0
    ensures Index(Group(x, y, 0)[2]) % 4 == 0 && Index(Group(x, y, 0)[3]) == 0
  {
  }

  lemma GroupIs(x: Byte, y: Byte, z: Byte, a: int, b: int, c: int, d: int)
    requires x / 4 == a && x % 4 * 16 + y / 16 == b && y % 16 * 4 + z / 64 == c && z % 64 == d
    ensures 0 <= a < 64 && 0 <= b < 64 && 0 <= c < 64 && 0 <= d < 64
    ensures Group(x, y, z) == [Symbol(a), Symbol(b), Symbol(c), Symbol(d)]
  {
  }

  lemma UngroupThenGroup(a: int, b: int, c: int, d: int)
    requires 0 <= a < 64 && 0 <= b < 64 && 0 <= c < 64 && 0 <= d < 64
    ensures var u := Ungroup(a, b, c, d);
            && Group(u[0], u[1], u[2]) == [Symbol(a), Symbol(b), Symbol(c), Symbol(d)]
            && (b % 16 == 0 && c == 0 ==> u[1] == 0)
            && (c % 4 == 0 && d == 0 ==> u[2] == 0)
  {
    FourSymbols(a, b, c, d);
    var x, y, z := a * 4 + b / 16, b % 16 * 16 + c / 4, c % 4 * 64 + d;
    UngroupIs(a, b, c, d, x, y, z);
    GroupIs(x, y, z, a, b, c, d);
  }

  /** Re-encoding decoded symbols gives the same symbols. */
  lemma SymbolsSurvive(s: Text)
    requires |s| == 4 && AllSymbols(s)
    ensures var u := Ungroup(Index(s[0]), Index(s[1]), Index(s[2]), Index(s[3])); Group(u[0], u[1], u[2]) == s
  {
    UngroupThenGroup(Index(s[0]), Index(s[1]), Index(s[2]), Index(s[3]));
    forall i | 0 <= i < 4
      ensures Symbol(Index(s[i])) == s[i]
    {
      SymbolOfIndex(s[i]);
    }
  }

  /** Splitting off a full first group changes neither the padding nor what it says. */
  lemma PaddingOfRest(s: Text)
    requires |s| % 4 == 0 && |s| > 4
    ensures PaddingIsCanonical(s) <==> PaddingIsCanonical(s[4..])
    ensures EndsWith(s, [PAD, PAD]) <==> EndsWith(s[4..], [PAD, PAD])
    ensures EndsWith(s, [PAD]) <==> EndsWith(s[4..], [PAD])
  {
    var rest := s[4..];
    assert s[|s| - 2..] == rest[|rest| - 2..];
    assert s[|s| - 1..] == rest[|rest| - 1..];
    assert s[|s| - 3] == rest[|rest| - 3] && s[|s| - 2] == rest[|rest| - 2];
  }

  lemma ShortPadding(s: Text)
    requires |s| == 4 && s[3] == PAD
    ensures EndsWith(s, [PAD])
    ensures EndsWith(s, [PAD, PAD]) <==> s[2] == PAD
  {
    assert s[3..] == [PAD];
    assert s[2..] == [s[2], PAD];
  }

  lemma FullEnd(s: Text)
    requires |s| == 4 && s[3] != PAD
    ensures !EndsWith(s, [PAD]) && !EndsWith(s, [PAD, PAD])
  {
    assert s[3..][0] == s[3] && s[2..][1] == s[3];
  }

  /** A group cut to its first two symbols. */
  lemma TwoSymbols(g: Text, x: Byte)
    requires |g| == 4 && AllSymbols(g) && PAD !in g && Index(g[1]) % 16 == 0 && Index(g[2]) == Index(g[3]) == 0
    requires Ungroup(Index(g[0]), Index(g[1]), 0, 0)[0] == x
    ensures var s := g[..2] + [PAD, PAD]; Canonical(s) && Decode(s) == [x] && DecodedLength(s) == 1
  {
    var s := g[..2] + [PAD, PAD];
    assert s[..2] == g[..2];
    ShortPadding(s);
  }

  /** A group cut to its first three symbols. */
  lemma ThreeSymbols(g: Text, x: Byte, y: Byte)
    requires |g| == 4 && AllSymbols(g) && PAD !in g && Index(g[2]) % 4 == 0 && Index(g[3]) == 0
    requires Ungroup(Index(g[0]), Index(g[1]), Index(g[2]), 0)[..2] == [x, y]
    ensures var s := g[..3] + [PAD]; Canonical(s) && Decode(s) == [x, y] && DecodedLength(s) == 2
  {
    var s := g[..3] + [PAD];
    assert s[..3] == g[..3];
    assert g[2] in g;
    ShortPadding(s);
  }

  lemma ShortEncodeIsCanonical(bytes: seq<Byte>)
    requires 1 <= |bytes| <= 2
    ensures Canonical(Encode(bytes)) && Decode(Encode(bytes)) == bytes
    ensures |Encode(bytes)| == EncodedLength(|bytes|) && DecodedLength(Encode(bytes)) == |bytes|
  {
    var x, y := bytes[0], if |bytes| == 2 then bytes[1] else 0;
    GroupThenUngroup(x, y, 0);
    GroupEndsInZeros(x, y);
    if |bytes| == 1 {
      TwoSymbols(Group(x, 0, 0), x);
    } else {
      ThreeSymbols(Group(x, y, 0), x, y);
    }
  }

  /** A group in front of canonical text, or of nothing. */
  lemma GroupInFront(g: Text, rest: Text)
    requires |g| == 4 && AllSymbols(g) && PAD !in g && (rest == [] || Canonical(rest))
    ensures Canonical(g + rest) && DecodedLength(g + rest) == 3 + (if rest == [] then 0 else DecodedLength(rest))
  {
    var s := g + rest;
    assert s[..4] == g && s[4..] == rest;
    if rest == [] {
      assert s == g;
      FullEnd(s);
    } else {
      PaddingOfRest(s);
    }
  }

  /** Encodings of bytes are canonical, have the computed lengths, and decode to the bytes. */
  lemma {:induction false} EncodeIsCanonical(bytes: seq<Byte>)
    requires bytes != []
    ensures Canonical(Encode(bytes)) && Decode(Encode(bytes)) == bytes
    ensures |Encode(bytes)| == EncodedLength(|bytes|) && DecodedLength(Encode(bytes)) == |bytes|
    decreases |bytes|
  {
    if |bytes| <= 2 {
      ShortEncodeIsCanonical(bytes);
    } else {
      if |bytes| > 3 {
        EncodeIsCanonical(bytes[3..]);
      }
      LongEncodeIsCanonical(bytes);
    }
  }

  lemma LongEncodeIsCanonical(bytes: seq<Byte>)
    requires |bytes| >= 3
    requires var rest := Encode(bytes[3..]);
             && Decode(rest) == bytes[3..] && |rest| == EncodedLength(|bytes| - 3)
             && (|bytes| > 3 ==> Canonical(rest) && DecodedLength(rest) == |bytes| - 3)
    ensures Canonical(Encode(bytes)) && Decode(Encode(bytes)) == bytes
    ensures |Encode(bytes)| == EncodedLength(|bytes|) && DecodedLength(Encode(bytes)) == |bytes|
  {
    var g, rest := Group(bytes[0], bytes[1], bytes[2]), Encode(bytes[3..]);
    LongEncodeDecodes(bytes, rest);
    GroupThenUngroup(bytes[0], bytes[1], bytes[2]);
    GroupInFront(g, rest);
    assert Encode(bytes) == g + rest;
  }

  lemma LongEncodeDecodes(bytes: seq<Byte>, rest: Text)
    requires |bytes| >= 3 && Decode(rest) == bytes[3..]
    ensures Decode(Group(bytes[0], bytes[1], bytes[2]) + rest) == bytes
  {
    GroupThenUngroup(bytes[0], bytes[1], bytes[2]);
    FullGroup(Group(bytes[0], bytes[1], bytes[2]), rest, [bytes[0], bytes[1], bytes[2]], bytes[3..]);
    assert bytes == [bytes[0], bytes[1], bytes[2]] + bytes[3..];
  }

  lemma FullGroup(g: Text, rest: Text, three: seq<Byte>, tail: seq<Byte>)
    requires |g| == 4 && PAD !in g && Ungroup(Index(g[0]), Index(g[1]), Index(g[2]), Index(g[3])) == three
    requires Decode(rest) == tail
    ensures Decode(g + rest) == three + tail
  {
    DecodeGroup(g, rest);
  }

  lemma DecodeGroup(g: Text, rest: Text)
    requires |g| == 4 && PAD !in g
    ensures Decode(g + rest) == Ungroup(Index(g[0]), Index(g[1]), Index(g[2]), Index(g[3])) + Decode(rest)
  {
    assert g[2] in g && g[3] in g;
    assert (g + rest)[4..] == rest;
  }

  lemma CanonicalRest(s: Text)
    requires Canonical(s) && |s| > 4
    ensures AllSymbols(s[..4]) && Canonical(s[4..])
  {
    PaddingOfRest(s);
  }

  /** Which of the three forms the last group has. */
  lemma LastGroupForms(s: Text)
    requires Canonical(s) && |s| == 4
    ensures if s[3] != PAD then AllSymbols(s)
            else if s[2] != PAD then AllSymbols(s[..3]) && Index(s[2]) % 4 == 0
            else AllSymbols(s[..2]) && Index(s[1]) % 16 == 0
  {
    assert s[..4] == s;
    if s[3] == PAD {
      ShortPadding(s);
      assert AllSymbols(s) ==> IsSymbol(s[3]);
      assert s[2] == PAD ==> (AllSymbols(s[..3]) ==> IsSymbol(s[..3][2]));
    }
  }

  lemma LastGroup(s: Text)
    requires Canonical(s) && |s| == 4
    ensures Decode(s) != [] && Encode(Decode(s)) == s
  {
    LastGroupForms(s);
    if s[3] != PAD {
      assert AllSymbols(s) ==> IsSymbol(s[2]);
      assert s[4..] == [];
      SymbolsSurvive(s);
    } else if s[2] != PAD {
      assert s[..3][0] == s[0] && s[..3][1] == s[1] && s[..3][2] == s[2];
      UngroupThenGroup(Index(s[0]), Index(s[1]), Index(s[2]), 0);
      SymbolOfIndex(s[0]);
      SymbolOfIndex(s[1]);
      SymbolOfIndex(s[2]);
    } else {
      assert s[..2][0] == s[0] && s[..2][1] == s[1];
      UngroupThenGroup(Index(s[0]), Index(s[1]), 0, 0);
      SymbolOfIndex(s[0]);
      SymbolOfIndex(s[1]);
    }
  }

  /** Canonical text decodes to bytes that encode to it again. */
  lemma {:induction false} DecodeThenEncode(s: Text)
    requires Canonical(s)
    ensures Decode(s) != [] && Encode(Decode(s)) == s
    decreases |s|
  {
    if |s| == 4 {
      LastGroup(s);
    } else {
      CanonicalRest(s);
      DecodeThenEncode(s[4..]);
      GroupBefore(s, Decode(s[4..]));
    }
  }

  lemma GroupBefore(s: Text, rest: seq<Byte>)
    requires |s| > 4 && AllSymbols(s[..4]) && Encode(rest) == s[4..] && rest == Decode(s[4..]) != []
    ensures Decode(s) != [] && Encode(Decode(s)) == s
  {
    var g := s[..4];
    assert g[2] == s[2] && g[3] == s[3] && IsSymbol(g[2]) && IsSymbol(g[3]);
    SymbolsSurvive(g);
    var u := Ungroup(Index(g[0]), Index(g[1]), Index(g[2]), Index(g[3]));
    assert Decode(s) == u + rest;
    assert (u + rest)[3..] == rest;
    assert s == g + s[4..];
  }

  /** The predicate accepts exactly the encodings of non-empty byte strings. */
  lemma CanonicalExactlyEncodings(s: Text)
    ensures Canonical(s) <==> exists bytes: seq<Byte> :: bytes != [] && Encode(bytes) == s
  {
    if Canonical(s) {
      DecodeThenEncode(s);
      assert Decode(s) != [] && Encode(Decode(s)) == s;
    }
    forall bytes: seq<Byte> | bytes != [] && Encode(bytes) == s
      ensures Canonical(s)
    {
      EncodeIsCanonical(bytes);
    }
  }

  /** isBase64EncodedBytes accepts exactly the encodings of that many bytes. */
  lemma EncodesBytesExactly(s: Text, n: nat)
    ensures EncodesBytes(s, n) <==> exists bytes: seq<Byte> :: |bytes| == n && Encode(bytes) == s
  {
    if EncodesBytes(s, n) {
      if s == [] {
        assert |Decode(s)| == n && Encode(Decode(s)) == s;
      } else {
        DecodeThenEncode(s);
        EncodeIsCanonical(Decode(s));
        assert |Decode(s)| == n && Encode(Decode(s)) == s;
      }
    }
    forall bytes: seq<Byte> | |bytes| == n && Encode(bytes) == s
      ensures EncodesBytes(s, n)
    {
      if bytes != [] {
        EncodeIsCanonical(bytes);
      }
    }
  }

  /** base64ToBytes undoes bytesToBase64 on every byte string that is not empty and fits its limit. */
  function ToBytes(s: Text, maxChars: nat): Result<seq<Byte>> {
    if |s| > maxChars || !Canonical(s) then Err else Ok(Decode(s))
  }

  lemma BytesRoundTrip(bytes: seq<Byte>, maxChars: nat)
    ensures ToBytes(Encode(bytes), maxChars) ==
              if bytes != [] && EncodedLength(|bytes|) <= maxChars then Ok(bytes) else Err
  {
    if bytes != [] {
      EncodeIsCanonical(bytes);
    }
  }
}
