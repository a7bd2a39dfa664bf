/**
 File names a receiver writes: cut to a byte limit without splitting characters, made safe, and
 numbered apart when they collide.

 Which characters are control or format characters and which are white space is left to
 unknown predicates.
*/
module FileNames {
  import opened Prelude
  import opened Utf16

  const SAFE_FILE_NAME_BYTES: int := 200
  const SAFE_EXTENSION_BYTES: nat := 32
  const MAX_INPUT_CHARS: int := 4096
  const MAX_ATTEMPTS: int := 256

  const DOT: Unit := 0x2E
  const SPACE: Unit := 0x20
  const UNDERSCORE: Unit := 0x5F
  const OPEN: Unit := 0x28
  const CLOSE: Unit := 0x29
  const FILE_TEXT: Text := [0x66, 0x69, 0x6C, 0x65]

  /** Code points to remove, and white space. */
  datatype Classes = Classes(unsafe: int -> bool, space: Unit -> bool)

  // ----- cutting at a character boundary -----

  /** The first `n` units are whole code points. */
  predicate Aligned(s: Text, n: nat)
    decreases |s|
  {
    n == 0 || (s != [] && FirstWidth(s) <= n && Aligned(s[FirstWidth(s)..], n - FirstWidth(s)))
  }

  /** How many units trimToUtf8Bytes keeps. */
  function KeptUnits(s: Text, maxBytes: int): (n: nat)
    ensures n <= |s|
    decreases |s|
  {
    if s == [] || |Utf8Point(FirstPoint(s))| > maxBytes then 0
    else FirstWidth(s) + KeptUnits(s[FirstWidth(s)..], maxBytes - |Utf8Point(FirstPoint(s))|)
  }

  function Trim(s: Text, maxBytes: int): Text { s[..KeptUnits(s, maxBytes)] }

  method TrimToUtf8Bytes(value: Text, maxBytes: int) returns (out: Text)
    ensures out == Trim(value, maxBytes)
  {
    out := [];
    var bytes, index := 0, 0;
    assert value[0..] == value;
    while index < |value|
      invariant 0 <= index <= |value|
      invariant out == value[..index]
      invariant KeptUnits(value, maxBytes) == index + KeptUnits(value[index..], maxBytes - bytes)
      decreases |value| - index
    {
      var rest := value[index..];
      assert rest[FirstWidth(rest)..] == value[index + FirstWidth(rest)..];
      var length := |Utf8Point(FirstPoint(rest))|;
      if bytes + length > maxBytes {
        break;
      }
      out := out + rest[..FirstWidth(rest)];
      bytes := bytes + length;
      index := index + FirstWidth(rest);
    }
    assert index == |value| ==> value[index..] == [];
  }

  /** An aligned prefix starts with the whole first code point. */
  lemma AlignedPrefix(s: Text, n: nat)
    requires s != [] && FirstWidth(s) <= n <= |s|
    ensures Utf8(s[..n]) == Utf8Point(FirstPoint(s)) + Utf8(s[FirstWidth(s)..][..n - FirstWidth(s)])
  {
    var p := s[..n];
    assert FirstWidth(p) == FirstWidth(s) && FirstPoint(p) == FirstPoint(s);
    assert p[FirstWidth(s)..] == s[FirstWidth(s)..][..n - FirstWidth(s)];
  }

  /** Trimming gives the longest prefix of whole code points within the byte budget. */
  lemma {:induction false} TrimIsLongest(s: Text, maxBytes: nat)
    ensures Aligned(s, KeptUnits(s, maxBytes)) && Utf8Length(Trim(s, maxBytes)) <= maxBytes
    ensures forall n: nat :: n <= |s| && Aligned(s, n) && Utf8Length(s[..n]) <= maxBytes ==> n <= KeptUnits(s, maxBytes)
    decreases |s|
  {
    if s != [] {
      var w, length := FirstWidth(s), |Utf8Point(FirstPoint(s))|;
      forall n: nat | 0 < n <= |s| && Aligned(s, n) && Utf8Length(s[..n]) <= maxBytes
        ensures n <= KeptUnits(s, maxBytes)
      {
        AlignedPrefix(s, n);
        TrimIsLongest(s[w..], maxBytes - length);
      }
      if length <= maxBytes {
        TrimIsLongest(s[w..], maxBytes - length);
        AlignedPrefix(s, KeptUnits(s, maxBytes));
      }
    }
  }

  // ----- the last part of a path -----

  predicate IsSeparator(u: Unit) { u == 47 || u == 92 }

  predicate NoSeparator(s: Text) { forall i :: 0 <= i < |s| ==> !IsSeparator(s[i]) }

  /** leafName: what follows the last separator, within the last 4096 units. */
  method LeafName(name: Text) returns (leaf: Text)
    ensures NoSeparator(leaf) && leaf != [] && |leaf| <= MAX_INPUT_CHARS
    ensures LeafOf(name, leaf)
  {
    var end := |name|;
    while end > 0 && IsSeparator(name[end - 1])
      invariant 0 <= end <= |name|
      invariant forall i :: end <= i < |name| ==> IsSeparator(name[i])
    {
      end := end - 1;
    }
    if end == 0 {
      return FILE_TEXT;
    }
    var min := if end - MAX_INPUT_CHARS > 0 then end - MAX_INPUT_CHARS else 0;
    var start := min;
    var index := end - 1;
    while index >= min
      invariant min - 1 <= index < end && start == min
      invariant forall i :: index < i < end ==> !IsSeparator(name[i])
    {
      if IsSeparator(name[index]) {
        start := index + 1;
        break;
      }
      index := index - 1;
    }
    leaf := name[start..end];
    assert IsLeaf(name, start, end);
  }

  /** Nothing but separators after it, none inside it, one before it unless it is cut or begins the name. */
  predicate IsLeaf(name: Text, start: int, end: int) {
    && 0 <= start < end <= |name| && end - start <= MAX_INPUT_CHARS
    && (forall i :: start <= i < end ==> !IsSeparator(name[i]))
    && (forall i :: end <= i < |name| ==> IsSeparator(name[i]))
    && (start > 0 && end - start < MAX_INPUT_CHARS ==> IsSeparator(name[start - 1]))
  }

  ghost predicate LeafOf(name: Text, leaf: Text) {
    || (leaf == FILE_TEXT && forall i :: 0 <= i < |name| ==> IsSeparator(name[i]))
    || (exists start: int, end: int :: IsLeaf(name, start, end) && leaf == name[start..end])
  }

  /** Two leaves end at the same place, and so begin at the same place. */
  lemma SameLeaf(name: Text, a: int, b: int, c: int, d: int)
    requires IsLeaf(name, a, b) && IsLeaf(name, c, d)
    ensures a == c && b == d
  {
    assert !IsSeparator(name[b - 1]) && !IsSeparator(name[d - 1]);
  }

  /** A name has one leaf only. */
  lemma LeafIsUnique(name: Text, leaf: Text, other: Text)
    requires LeafOf(name, leaf) && LeafOf(name, other)
    ensures leaf == other
  {
    if !(forall i :: 0 <= i < |name| ==> IsSeparator(name[i])) {
      var a: int, b: int :| IsLeaf(name, a, b) && leaf == name[a..b];
      var c: int, d: int :| IsLeaf(name, c, d) && other == name[c..d];
      SameLeaf(name, a, b, c, d);
    } else {
      NoLeafAmongSeparators(name);
    }
  }

  lemma NoLeafAmongSeparators(name: Text)
    requires forall i :: 0 <= i < |name| ==> IsSeparator(name[i])
    ensures forall a: int, b: int :: !IsLeaf(name, a, b)
  {
    forall a: int, b: int
      ensures !IsLeaf(name, a, b)
    {
      assert 0 <= a < |name| ==> IsSeparator(name[a]);
    }
  }

  // ----- cleaning -----

  function RemoveUnsafe(c: Classes, s: Text): Text
    decreases |s|
  {
    if s == [] then []
    else (if c.unsafe(FirstPoint(s)) then [] else s[..FirstWidth(s)]) + RemoveUnsafe(c, s[FirstWidth(s)..])
  }

  function StripDotsAndSpaces(s: Text): Text {
    if s != [] && (s[|s| - 1] == DOT || s[|s| - 1] == SPACE) then StripDotsAndSpaces(s[..|s| - 1]) else s
  }

  function StripLeft(c: Classes, s: Text): Text { if s != [] && c.space(s[0]) then StripLeft(c, s[1..]) else s }

  function StripRight(c: Classes, s: Text): Text {
    if s != [] && c.space(s[|s| - 1]) then StripRight(c, s[..|s| - 1]) else s
  }

  function Clean(c: Classes, leaf: Text): Text { StripRight(c, StripLeft(c, StripDotsAndSpaces(RemoveUnsafe(c, leaf)))) }

  function LastIndexBelow(s: Text, u: Unit, n: nat): (i: int)
    requires n <= |s|
    ensures -1 <= i < n
  {
    if n == 0 then -1 else if s[n - 1] == u then n - 1 else LastIndexBelow(s, u, n - 1)
  }

  function LastIndex(s: Text, u: Unit): int { LastIndexBelow(s, u, |s|) }

  predicate HasExtension(s: Text) { 0 < LastIndex(s, DOT) < |s| - 1 }

  /** trimLongFileName. */
  function TrimLong(name: Text, maxBytes: int): Text {
    var dot := LastIndex(name, DOT);
    if HasExtension(name) then
      var ext := Trim(name[dot..], Min(SAFE_EXTENSION_BYTES, Max(0, maxBytes - 1)));
      Trim(name[..dot], maxBytes - Utf8Length(ext)) + ext
    else Trim(name, maxBytes)
  }

  // ----- device names -----

  function FirstIndex(s: Text, u: Unit, from: nat): (i: nat)
    requires from <= |s|
    ensures from <= i <= |s|
    decreases |s| - from
  {
    if from == |s| || s[from] == u then from else FirstIndex(s, u, from + 1)
  }

  function Lower(u: Unit): Unit { if 0x41 <= u <= 0x5A then u + 32 else u }

  function Lowered(s: Text): Text { seq(|s|, i requires 0 <= i < |s| => Lower(s[i])) }

  /** con, prn, aux, nul, and com and lpt with a digit from 1 to 9. */
  predicate IsDevice(s: Text) {
    || s == [0x63, 0x6F, 0x6E] || s == [0x70, 0x72, 0x6E] || s == [0x61, 0x75, 0x78] || s == [0x6E, 0x75, 0x6C]
    || (|s| == 4 && (s[..3] == [0x63, 0x6F, 0x6D] || s[..3] == [0x6C, 0x70, 0x74]) && 0x31 <= s[3] <= 0x39)
  }

  /** The name before its first dot, less the spaces at its end, is that of a device. */
  predicate Reserved(name: Text) { IsDevice(Lowered(StripDotsAndSpaces(name[..FirstIndex(name, DOT, 0)]))) }

  /** isWindowsReservedName. */
  method IsWindowsReservedName(name: Text) returns (reserved: bool)
    ensures reserved == Reserved(name)
  {
    var dot := |name|;
    var index := 0;
    while index < |name|
      invariant index <= |name| && dot == |name| && FirstIndex(name, DOT, 0) == FirstIndex(name, DOT, index)
    {
      if name[index] == DOT {
        dot := index;
        break;
      }
      index := index + 1;
    }
    var end := dot;
    while end > 0
      invariant 0 <= end <= dot
      invariant StripDotsAndSpaces(name[..dot]) == StripDotsAndSpaces(name[..end])
    {
      var code := name[end - 1];
      if code != DOT && code != SPACE {
        break;
      }
      assert name[..end][..end - 1] == name[..end - 1];
      end := end - 1;
    }
    return end > 0 && IsDevice(Lowered(name[..end]));
  }

  predicate ValidLimit(maxBytes: int) { 16 <= maxBytes <= SAFE_FILE_NAME_BYTES }

  /** The safe form of the last part of a path. */
  function SafeLeaf(c: Classes, leaf: Text, maxBytes: int): Text {
    var cleaned := Clean(c, leaf);
    if cleaned == [] || cleaned == [DOT] || cleaned == [DOT, DOT] then FILE_TEXT
    else
      var safe := Unhidden(c, cleaned);
      if Utf8Length(safe) > maxBytes then TrimLong(safe, maxBytes) else safe
  }

  /** Neither a hidden file nor a device. */
  function Unhidden(c: Classes, cleaned: Text): Text
    requires cleaned != []
  {
    var visible := if cleaned[0] == DOT then [UNDERSCORE] + cleaned[1..] else cleaned;
    if Reserved(visible) then [UNDERSCORE] + visible else visible
  }

  /** Every unit of `s` is allowed by a predicate that also allows what cleaning adds. */
  ghost predicate AllOf(s: Text, ok: Unit -> bool) { forall i :: 0 <= i < |s| ==> ok(s[i]) }

  lemma {:induction false} RemoveUnsafeKeeps(c: Classes, s: Text, ok: Unit -> bool)
    requires AllOf(s, ok)
    ensures AllOf(RemoveUnsafe(c, s), ok)
    decreases |s|
  {
    if s != [] {
      assert AllOf(s[FirstWidth(s)..], ok);
      RemoveUnsafeKeeps(c, s[FirstWidth(s)..], ok);
    }
  }

  lemma {:induction false} StripDotsKeeps(s: Text, ok: Unit -> bool)
    requires AllOf(s, ok)
    ensures AllOf(StripDotsAndSpaces(s), ok)
  {
    if s != [] {
      StripDotsKeeps(s[..|s| - 1], ok);
    }
  }

  lemma {:induction false} StripLeftKeeps(c: Classes, s: Text, ok: Unit -> bool)
    requires AllOf(s, ok)
    ensures AllOf(StripLeft(c, s), ok)
  {
    if s != [] {
      StripLeftKeeps(c, s[1..], ok);
    }
  }

  lemma {:induction false} StripRightKeeps(c: Classes, s: Text, ok: Unit -> bool)
    requires AllOf(s, ok)
    ensures AllOf(StripRight(c, s), ok)
  {
    if s != [] {
      StripRightKeeps(c, s[..|s| - 1], ok);
    }
  }

  lemma CleanKeeps(c: Classes, leaf: Text, ok: Unit -> bool)
    requires AllOf(leaf, ok)
    ensures AllOf(Clean(c, leaf), ok)
  {
    RemoveUnsafeKeeps(c, leaf, ok);
    StripDotsKeeps(RemoveUnsafe(c, leaf), ok);
    StripLeftKeeps(c, StripDotsAndSpaces(RemoveUnsafe(c, leaf)), ok);
    StripRightKeeps(c, StripLeft(c, StripDotsAndSpaces(RemoveUnsafe(c, leaf))), ok);
  }

  lemma {:induction false} LastIndexIs(s: Text, u: Unit, n: nat)
    requires n <= |s|
    ensures var i := LastIndexBelow(s, u, n); (i >= 0 ==> s[i] == u) && forall j :: i < j < n ==> s[j] != u
  {
    if n > 0 && s[n - 1] != u {
      LastIndexIs(s, u, n - 1);
    }
  }

  lemma LastIndexOfJoin(a: Text, u: Unit, b: Text)
    requires u !in b
    ensures LastIndex(a + [u] + b, u) == |a|
  {
    var s := a + [u] + b;
    LastIndexIs(s, u, |s|);
    assert s[|a|] == u;
    assert forall j :: |a| < j < |s| ==> s[j] == b[j - |a| - 1];
  }

  /** Two texts joined where the second begins with ASCII. */
  lemma JoinLength(a: Text, b: Text)
    requires b == [] || b[0] < 0x80
    ensures Utf8Length(a + b) == Utf8Length(a) + Utf8Length(b)
  {
    Utf8Concat(a, b);
  }

  lemma TrimFits(s: Text, maxBytes: nat)
    ensures Utf8Length(Trim(s, maxBytes)) <= maxBytes
  {
    TrimIsLongest(s, maxBytes);
  }

  /** A budget of four bytes or more keeps the first character. */
  lemma TrimKeepsFirst(s: Text, maxBytes: int)
    requires s != [] && (maxBytes >= 4 || (s[0] < 0x80 && maxBytes >= 1))
    ensures Trim(s, maxBytes) != [] && Trim(s, maxBytes)[0] == s[0]
  {
  }

  lemma TrimLongFits(name: Text, maxBytes: int)
    requires ValidLimit(maxBytes)
    ensures Utf8Length(TrimLong(name, maxBytes)) <= maxBytes
  {
    if HasExtension(name) {
      var dot := LastIndex(name, DOT);
      LastIndexIs(name, DOT, |name|);
      var budget := Min(SAFE_EXTENSION_BYTES, Max(0, maxBytes - 1));
      var ext := Trim(name[dot..], budget);
      TrimFits(name[dot..], budget);
      TrimKeepsFirst(name[dot..], budget);
      TrimFits(name[..dot], maxBytes - Utf8Length(ext));
      JoinLength(Trim(name[..dot], maxBytes - Utf8Length(ext)), ext);
    } else {
      TrimFits(name, maxBytes);
    }
  }

  lemma TrimLongKeeps(name: Text, maxBytes: int, ok: Unit -> bool)
    requires AllOf(name, ok)
    ensures AllOf(TrimLong(name, maxBytes), ok)
  {
  }

  /**
   Safe names, for every input string, lone surrogates included: at most `maxBytes` bytes of
   UTF-8, and no unit that is neither an underscore nor allowed for all of the leaf.
  */
  lemma SafeLeafFits(c: Classes, leaf: Text, maxBytes: int, ok: Unit -> bool)
    requires ValidLimit(maxBytes) && AllOf(leaf, ok) && AllOf(FILE_TEXT, ok) && ok(UNDERSCORE)
    ensures Utf8Length(SafeLeaf(c, leaf, maxBytes)) <= maxBytes && AllOf(SafeLeaf(c, leaf, maxBytes), ok)
  {
    CleanKeeps(c, leaf, ok);
    Utf8OfAscii(FILE_TEXT);
    var cleaned := Clean(c, leaf);
    if cleaned != [] {
      UnhiddenKeeps(c, cleaned, ok);
      TrimLongFits(Unhidden(c, cleaned), maxBytes);
      TrimLongKeeps(Unhidden(c, cleaned), maxBytes, ok);
    }
  }

  lemma UnhiddenKeeps(c: Classes, cleaned: Text, ok: Unit -> bool)
    requires cleaned != [] && AllOf(cleaned, ok) && ok(UNDERSCORE)
    ensures AllOf(Unhidden(c, cleaned), ok)
  {
  }

  /** safeFileName; Err stands for the exception on an invalid limit. */
  method SafeFileName(c: Classes, name: Text, maxBytes: int) returns (r: Result<Text>)
    ensures r.Ok? <==> ValidLimit(maxBytes)
    ensures r.Ok? ==> Utf8Length(r.value) <= maxBytes && NoSeparator(r.value)
    ensures r.Ok? ==> exists leaf :: LeafOf(name, leaf) && r.value == SafeLeaf(c, leaf, maxBytes)
  {
    if !ValidLimit(maxBytes) {
      return Err;
    }
    var leaf := LeafName(name);
    SafeLeafFits(c, leaf, maxBytes, (u: Unit) => !IsSeparator(u));
    return Ok(SafeLeaf(c, leaf, maxBytes));
  }

  // ----- device names and unsafe characters -----

  lemma UnderscoreFrees(t: Text)
    ensures !Reserved([UNDERSCORE] + t)
  {
    var name := [UNDERSCORE] + t;
    var before := name[..FirstIndex(name, DOT, 0)];
    StripKeepsStart(before);
    assert Lowered(StripDotsAndSpaces(before))[0] == UNDERSCORE;
  }

  lemma {:induction false} StripKeepsStart(s: Text)
    requires s != [] && s[0] != DOT && s[0] != SPACE
    ensures StripDotsAndSpaces(s) != [] && StripDotsAndSpaces(s)[0] == s[0]
  {
    if s[|s| - 1] == DOT || s[|s| - 1] == SPACE {
      StripKeepsStart(s[..|s| - 1]);
    }
  }

  /** A safe name that did not have to be cut is never that of a device. */
  lemma UncutIsNoDevice(c: Classes, leaf: Text, maxBytes: int)
    requires ValidLimit(maxBytes) && (Clean(c, leaf) != [] ==> Utf8Length(Unhidden(c, Clean(c, leaf))) <= maxBytes)
    ensures !Reserved(SafeLeaf(c, leaf, maxBytes))
  {
    var cleaned := Clean(c, leaf);
    FileIsNoDevice();
    if cleaned != [] {
      var visible := if cleaned[0] == DOT then [UNDERSCORE] + cleaned[1..] else cleaned;
      UnderscoreFrees(visible);
    }
  }

  /** A name of which nothing is left, or only dots, is called file. */
  lemma NothingLeftIsFile(c: Classes, leaf: Text, maxBytes: int)
    requires ValidLimit(maxBytes) && forall i :: 0 <= i < |Clean(c, leaf)| ==> Clean(c, leaf)[i] == DOT
    requires |Clean(c, leaf)| <= 2
    ensures SafeLeaf(c, leaf, maxBytes) == FILE_TEXT
  {
    assert |Clean(c, leaf)| == 2 ==> Clean(c, leaf) == [DOT, DOT];
  }

  /** A safe name that did not have to be cut has no white space around it. */
  lemma UncutIsTrimmed(c: Classes, leaf: Text, maxBytes: int)
    requires ValidLimit(maxBytes) && (Clean(c, leaf) != [] ==> Utf8Length(Unhidden(c, Clean(c, leaf))) <= maxBytes)
    requires !c.space(UNDERSCORE) && !c.space(FILE_TEXT[0]) && !c.space(FILE_TEXT[3])
    ensures var name := SafeLeaf(c, leaf, maxBytes); name != [] && !c.space(name[0]) && !c.space(name[|name| - 1])
  {
    StripRightTrims(c, StripLeft(c, StripDotsAndSpaces(RemoveUnsafe(c, leaf))));
    StripLeftTrims(c, StripDotsAndSpaces(RemoveUnsafe(c, leaf)));
  }

  lemma {:induction false} StripLeftTrims(c: Classes, s: Text)
    ensures var t := StripLeft(c, s); t != [] ==> !c.space(t[0])
  {
    if s != [] && c.space(s[0]) {
      StripLeftTrims(c, s[1..]);
    }
  }

  lemma {:induction false} StripRightTrims(c: Classes, s: Text)
    ensures var t := StripRight(c, s); t != [] ==> !c.space(t[|t| - 1]) && s != [] && t[0] == s[0]
  {
    if s != [] && c.space(s[|s| - 1]) {
      StripRightTrims(c, s[..|s| - 1]);
    }
  }

  lemma FileIsNoDevice()
    ensures !Reserved(FILE_TEXT)
  {
    assert FirstIndex(FILE_TEXT, DOT, 0) == 4 by {
      assert FirstIndex(FILE_TEXT, DOT, 3) == 4;
      assert FirstIndex(FILE_TEXT, DOT, 2) == 4;
      assert FirstIndex(FILE_TEXT, DOT, 1) == 4;
    }
    assert FILE_TEXT[..4] == FILE_TEXT;
    assert Lowered(FILE_TEXT)[0] == 0x66;
  }

  function Spaces(n: nat): Text { seq(n, i => SPACE) }

  /** The device's name, spaces, and a letter. */
  function Disguised(n: nat): Text { [0x63, 0x6F, 0x6E] + Spaces(n) + [0x78] }

  /** Cut at any permitted limit, a long disguise comes off: what is left is a device's name. */
  lemma DeviceAfterCut(c: Classes, n: nat, maxBytes: int)
    requires ValidLimit(maxBytes) && SAFE_FILE_NAME_BYTES <= n <= MAX_INPUT_CHARS - 4
    requires AllSafe(c, Disguised(n)) && !c.space(0x63) && !c.space(0x78)
    ensures LeafOf(Disguised(n), Disguised(n)) && Reserved(SafeLeaf(c, Disguised(n), maxBytes))
  {
    var s := Disguised(n);
    DisguiseHolds(n);
    OnlyCut(c, s, maxBytes);
    DisguiseIsCut(s, n, maxBytes);
    DisguiseOff(s[..maxBytes], maxBytes);
  }

  /** Before it is cut the name is one leaf, without a dot, and not that of a device. */
  lemma DisguiseHolds(n: nat)
    requires SAFE_FILE_NAME_BYTES <= n <= MAX_INPUT_CHARS - 4
    ensures var s := Disguised(n);
            LeafOf(s, s) && !Reserved(s) && DOT !in s && IsAscii(s) && Utf8Length(s) == |s| == n + 4
  {
    var s := Disguised(n);
    assert forall i :: 0 <= i < |s| ==> s[i] in [0x63, 0x6F, 0x6E, SPACE, 0x78];
    assert IsLeaf(s, 0, |s|) && s == s[0..|s|];
    Utf8OfAscii(s);
    LongIsNoDevice(s);
  }

  lemma LongIsNoDevice(s: Text)
    requires DOT !in s && |s| > 4 && s[|s| - 1] != SPACE
    ensures !Reserved(s)
  {
    NoDotIndex(s, 0);
    assert s[|s| - 1] in s;
    StripKeepsEnd(s);
    assert s[..|s|] == s && |Lowered(s)| > 4;
  }

  lemma DisguiseIsCut(s: Text, n: nat, maxBytes: int)
    requires ValidLimit(maxBytes) && SAFE_FILE_NAME_BYTES <= n && s == Disguised(n) && DOT !in s && IsAscii(s)
    ensures TrimLong(s, maxBytes) == s[..maxBytes] && s[..maxBytes] == [0x63, 0x6F, 0x6E] + Spaces(maxBytes - 3)
  {
    NoDotBelow(s, |s|);
    AsciiTrim(s, maxBytes);
  }

  lemma {:induction false} NoDotBelow(s: Text, n: nat)
    requires n <= |s| && DOT !in s
    ensures LastIndexBelow(s, DOT, n) == -1
  {
    if n > 0 {
      assert s[n - 1] in s;
      NoDotBelow(s, n - 1);
    }
  }

  lemma {:induction false} NoDotIndex(s: Text, from: nat)
    requires from <= |s| && DOT !in s
    ensures FirstIndex(s, DOT, from) == |s|
    decreases |s| - from
  {
    if from < |s| {
      assert s[from] in s;
      NoDotIndex(s, from + 1);
    }
  }

  lemma StripKeepsEnd(s: Text)
    requires s != [] && s[|s| - 1] != DOT && s[|s| - 1] != SPACE
    ensures StripDotsAndSpaces(s) == s
  {
  }

  lemma DisguiseOff(s: Text, n: nat)
    requires |s| == n >= 16 && s == [0x63, 0x6F, 0x6E] + Spaces(n - 3)
    ensures Reserved(s)
  {
    NoDotIndex(s, 0);
    assert s[..n] == s;
    SpacesOff([0x63, 0x6F, 0x6E], n - 3);
    assert Lowered([0x63, 0x6F, 0x6E]) == [0x63, 0x6F, 0x6E];
  }

  lemma {:induction false} SpacesOff(name: Text, n: nat)
    requires name != [] && name[|name| - 1] != DOT && name[|name| - 1] != SPACE
    ensures StripDotsAndSpaces(name + Spaces(n)) == name
  {
    if n == 0 {
      assert name + Spaces(0) == name;
    } else {
      assert (name + Spaces(n))[..|name| + n - 1] == name + Spaces(n - 1);
      SpacesOff(name, n - 1);
    }
  }

  /** No character of one unit that is to be removed survives, for every input. */
  lemma NoUnsafeUnit(c: Classes, leaf: Text, maxBytes: int)
    requires ValidLimit(maxBytes) && !c.unsafe(UNDERSCORE) && forall i :: 0 <= i < |FILE_TEXT| ==> !c.unsafe(FILE_TEXT[i])
    ensures AllOf(SafeLeaf(c, leaf, maxBytes), u => IsSurrogate(u) || !c.unsafe(u))
  {
    var ok := (u: Unit) => IsSurrogate(u) || !c.unsafe(u);
    RemoveUnsafeRemoves(c, leaf);
    var removed := RemoveUnsafe(c, leaf);
    StripDotsKeeps(removed, ok);
    StripLeftKeeps(c, StripDotsAndSpaces(removed), ok);
    StripRightKeeps(c, StripLeft(c, StripDotsAndSpaces(removed)), ok);
    var cleaned := Clean(c, leaf);
    if cleaned != [] {
      UnhiddenKeeps(c, cleaned, ok);
      TrimLongKeeps(Unhidden(c, cleaned), maxBytes, ok);
    }
  }

  lemma {:induction false} RemoveUnsafeRemoves(c: Classes, s: Text)
    ensures AllOf(RemoveUnsafe(c, s), u => IsSurrogate(u) || !c.unsafe(u))
    decreases |s|
  {
    if s != [] {
      RemoveUnsafeRemoves(c, s[FirstWidth(s)..]);
    }
  }

  // ----- hidden names -----

  lemma FirstKept(name: Text, maxBytes: int)
    requires 36 <= maxBytes <= SAFE_FILE_NAME_BYTES && name != [] && name[0] != DOT
    ensures TrimLong(name, maxBytes) != [] && TrimLong(name, maxBytes)[0] != DOT
  {
    if HasExtension(name) {
      var dot := LastIndex(name, DOT);
      var ext := Trim(name[dot..], SAFE_EXTENSION_BYTES);
      TrimFits(name[dot..], SAFE_EXTENSION_BYTES);
      TrimKeepsFirst(name[..dot], maxBytes - Utf8Length(ext));
    } else {
      TrimKeepsFirst(name, maxBytes);
    }
  }

  /** From 36 bytes on, and so at the default limit, a safe name is not empty and not hidden. */
  lemma NeverHidden(c: Classes, leaf: Text, maxBytes: int)
    requires 36 <= maxBytes <= SAFE_FILE_NAME_BYTES
    ensures SafeLeaf(c, leaf, maxBytes) != [] && SafeLeaf(c, leaf, maxBytes)[0] != DOT
  {
    var cleaned := Clean(c, leaf);
    if cleaned != [] {
      FirstKept(Unhidden(c, cleaned), maxBytes);
    }
  }

  /** No character is one to remove. */
  predicate AllSafe(c: Classes, s: Text)
    decreases |s|
  {
    s == [] || (!c.unsafe(FirstPoint(s)) && AllSafe(c, s[FirstWidth(s)..]))
  }

  /** Cleaning has nothing to do: no character to remove and no white space around. */
  predicate LeavesAlone(c: Classes, s: Text) {
    && s != [] && AllSafe(c, s)
    && !c.space(s[0]) && !c.space(s[|s| - 1]) && s[|s| - 1] != DOT && s[|s| - 1] != SPACE
  }

  lemma {:induction false} NothingRemoved(c: Classes, s: Text)
    requires AllSafe(c, s)
    ensures RemoveUnsafe(c, s) == s
    decreases |s|
  {
    if s != [] {
      NothingRemoved(c, s[FirstWidth(s)..]);
    }
  }

  /** A character of four bytes. */
  function Wide(): Text { [0xD83D, 0xDE00] }

  /** An extension long enough to be cut, in a name short enough not to be. */
  predicate LongTail(tail: Text) { 36 <= |tail| <= MAX_INPUT_CHARS - 3 && IsAscii(tail) && DOT !in tail && NoSeparator(tail) }

  lemma CleanIsIdentity(c: Classes, s: Text)
    requires LeavesAlone(c, s)
    ensures Clean(c, s) == s
  {
    NothingRemoved(c, s);
  }

  lemma AtLeastAscii(a: Text, b: Text)
    requires IsAscii(b) && b != []
    ensures Utf8Length(a + b) >= |b|
  {
    Utf8OfAscii(b);
    JoinLength(a, b);
  }

  lemma WideNameIsLeaf(s: Text, tail: Text)
    requires LongTail(tail) && s == Wide() + [DOT] + tail
    ensures LeafOf(s, s) && LastIndex(s, DOT) == 2 && Utf8Length(s) > 36
  {
    assert forall i :: 3 <= i < |s| ==> s[i] == tail[i - 3];
    assert IsLeaf(s, 0, |s|) && s == s[0..|s|];
    LastIndexOfJoin(Wide(), DOT, tail);
    AtLeastAscii(Wide(), [DOT] + tail);
    assert s == Wide() + ([DOT] + tail);
  }

  /** A wide first character does not fit beside an extension that takes almost all bytes. */
  lemma WideIsCut(s: Text, tail: Text, maxBytes: int)
    requires LongTail(tail) && s == Wide() + [DOT] + tail && LastIndex(s, DOT) == 2 && 16 <= maxBytes < 36
    ensures TrimLong(s, maxBytes) != [] && TrimLong(s, maxBytes)[0] == DOT
  {
    var budget := Min(SAFE_EXTENSION_BYTES, maxBytes - 1);
    assert s[2..] == [DOT] + tail && s[..2] == Wide();
    AsciiTrim([DOT] + tail, budget);
    var ext := Trim(s[2..], budget);
    assert FirstWidth(Wide()) == 2 && FirstPoint(Wide()) >= 0x1_0000;
    assert Trim(s[..2], maxBytes - Utf8Length(ext)) == [];
    assert TrimLong(s, maxBytes) == [] + ext;
  }

  /** A clean name over the limit is cut and not changed otherwise. */
  lemma OnlyCut(c: Classes, s: Text, maxBytes: int)
    requires LeavesAlone(c, s) && s[0] != DOT && !Reserved(s) && Utf8Length(s) > maxBytes
    ensures SafeLeaf(c, s, maxBytes) == TrimLong(s, maxBytes)
  {
    CleanIsIdentity(c, s);
    assert Unhidden(c, s) == s;
  }

  lemma WideIsNoDevice(s: Text, tail: Text)
    requires s == Wide() + [DOT] + tail
    ensures !Reserved(s)
  {
    assert s[0] == 0xD83D && s[1] == 0xDE00 && s[2] == DOT;
    assert FirstIndex(s, DOT, 2) == 2;
    assert FirstIndex(s, DOT, 1) == 2;
    assert FirstIndex(s, DOT, 0) == 2;
    assert s[..2] == Wide();
    StripKeepsEnd(Wide());
    assert |Lowered(Wide())| == 2;
  }

  /** A name that is clean, visible, no device's and within the limit is kept as it is. */
  lemma GoodNameKept(c: Classes, s: Text, maxBytes: int)
    requires LeavesAlone(c, s) && s[0] != DOT && !Reserved(s) && Utf8Length(s) <= maxBytes
    ensures SafeLeaf(c, s, maxBytes) == s
  {
    CleanIsIdentity(c, s);
    assert Unhidden(c, s) == s;
  }

  predicate Visible(name: Text) { name != [] && name[0] != DOT }

  /**
   Below 36 bytes it can fail, whatever is removed from other names: a wide first character is
   cut away before the extension is.
  */
  lemma HiddenBelow36(c: Classes, tail: Text, maxBytes: int)
    requires LongTail(tail) && LeavesAlone(c, Wide() + [DOT] + tail) && 16 <= maxBytes < 36
    ensures var s := Wide() + [DOT] + tail;
            LeafOf(s, s) && SafeLeaf(c, s, maxBytes) != [] && SafeLeaf(c, s, maxBytes)[0] == DOT
  {
    var s := Wide() + [DOT] + tail;
    WideNameIsLeaf(s, tail);
    WideIsNoDevice(s, tail);
    OnlyCut(c, s, maxBytes);
    WideIsCut(s, tail, maxBytes);
  }

  /** No name becomes a hidden one exactly at the limits from 36 bytes on. */
  lemma VisibleExactlyFrom36(c: Classes, tail: Text, maxBytes: int)
    requires ValidLimit(maxBytes) && LongTail(tail) && LeavesAlone(c, Wide() + [DOT] + tail)
    ensures (forall name: Text, leaf: Text :: LeafOf(name, leaf) ==> Visible(SafeLeaf(c, leaf, maxBytes))) <==> maxBytes >= 36
  {
    if maxBytes < 36 {
      HiddenBelow36(c, tail, maxBytes);
      assert !Visible(SafeLeaf(c, Wide() + [DOT] + tail, maxBytes));
    } else {
      forall name: Text, leaf: Text | LeafOf(name, leaf)
        ensures Visible(SafeLeaf(c, leaf, maxBytes))
      {
        NeverHidden(c, leaf, maxBytes);
      }
    }
  }

  lemma {:induction false} AsciiTrim(s: Text, maxBytes: nat)
    requires IsAscii(s)
    ensures KeptUnits(s, maxBytes) == (if |s| <= maxBytes then |s| else maxBytes)
    ensures Utf8Length(Trim(s, maxBytes)) == KeptUnits(s, maxBytes)
    decreases |s|
  {
    if s != [] && maxBytes > 0 {
      AsciiTrim(s[1..], maxBytes - 1);
    }
    Utf8OfAscii(Trim(s, maxBytes));
  }

  // ----- collisions -----

  function Decimal(n: nat): Text { if n < 10 then [0x30 + n] else Decimal(n / 10) + [0x30 + n % 10] }

  function Suffix(index: nat): Text { [SPACE, OPEN] + Decimal(index) + [CLOSE] }

  /** safeCollisionFileName. */
  function Collision(safeName: Text, index: int, maxBytes: int): Result<Text> {
    if !ValidLimit(maxBytes) then Err
    else if index == 0 then if Utf8Length(safeName) > maxBytes then Err else Ok(safeName)
    else if index < 1 || index >= MAX_ATTEMPTS then Err
    else Ok(Numbered(safeName, index, maxBytes))
  }

  function ExtensionOf(safeName: Text, index: nat, maxBytes: int): Text {
    var dot := LastIndex(safeName, DOT);
    if HasExtension(safeName)
    then Trim(safeName[dot..], Min(SAFE_EXTENSION_BYTES, Max(0, maxBytes - Utf8Length(Suffix(index)) - 1)))
    else []
  }

  function Stem(safeName: Text): Text { if HasExtension(safeName) then safeName[..LastIndex(safeName, DOT)] else safeName }

  function Numbered(safeName: Text, index: nat, maxBytes: int): Text {
    var suffix, ext := Suffix(index), ExtensionOf(safeName, index, maxBytes);
    Trim(Stem(safeName), Max(1, maxBytes - Utf8Length(suffix) - Utf8Length(ext))) + suffix + ext
  }

  predicate IsDigit(u: Unit) { 0x30 <= u <= 0x39 }

  lemma {:induction false} DecimalDigits(n: nat)
    ensures forall i :: 0 <= i < |Decimal(n)| ==> IsDigit(Decimal(n)[i])
    ensures n < 256 ==> 1 <= |Decimal(n)| <= 3
  {
    if n >= 10 {
      DecimalDigits(n / 10);
      assert n < 256 ==> n / 10 < 26;
      if n < 256 {
        ShortDecimal(n / 10);
      }
    }
  }

  lemma ShortDecimal(n: nat)
    requires n < 26
    ensures 1 <= |Decimal(n)| <= 2
  {
    assert n / 10 < 10;
    if n >= 10 {
      assert Decimal(n / 10) == [0x30 + n / 10];
    }
  }

  lemma {:induction false} DecimalIsInjective(n: nat, m: nat)
    requires Decimal(n) == Decimal(m)
    ensures n == m
  {
    var d, e := Decimal(n), Decimal(m);
    DecimalDigits(n / 10);
    DecimalDigits(m / 10);
    NotEmpty(n / 10);
    NotEmpty(m / 10);
    assert d[|d| - 1] == e[|e| - 1];
    if n >= 10 && m >= 10 {
      assert d[..|d| - 1] == Decimal(n / 10) && e[..|e| - 1] == Decimal(m / 10);
      DecimalIsInjective(n / 10, m / 10);
    }
  }

  lemma NotEmpty(n: nat)
    ensures |Decimal(n)| >= 1
  {
  }

  lemma SuffixLength(index: nat)
    requires index < 256
    ensures 4 <= |Suffix(index)| == Utf8Length(Suffix(index)) <= 6
  {
    DecimalDigits(index);
    Utf8OfAscii(Suffix(index));
  }

  /** What the extension keeps: nothing, or a dot and no other dot. */
  lemma ExtensionShape(safeName: Text, index: nat, maxBytes: int)
    requires ValidLimit(maxBytes) && 1 <= index < 256
    ensures var ext := ExtensionOf(safeName, index, maxBytes);
            && Utf8Length(ext) + Utf8Length(Suffix(index)) + 1 <= maxBytes
            && (HasExtension(safeName) ==> ext != [] && ext[0] == DOT && DOT !in ext[1..])
  {
    SuffixLength(index);
    if HasExtension(safeName) {
      var dot := LastIndex(safeName, DOT);
      LastIndexIs(safeName, DOT, |safeName|);
      var budget := Min(SAFE_EXTENSION_BYTES, Max(0, maxBytes - Utf8Length(Suffix(index)) - 1));
      TrimFits(safeName[dot..], budget);
      TrimKeepsFirst(safeName[dot..], budget);
    }
  }

  /** The number that digits spell. */
  function NumberOf(s: Text): int {
    if s == [] then 0
    else
      var last: int := s[|s| - 1];
      10 * NumberOf(s[..|s| - 1]) + last - 0x30
  }

  lemma {:induction false} DecimalSpells(n: nat)
    ensures NumberOf(Decimal(n)) == n
  {
    if n >= 10 {
      DecimalSpells(n / 10);
      assert Decimal(n)[..|Decimal(n)| - 1] == Decimal(n / 10);
    } else {
      assert Decimal(n)[..0] == [];
    }
  }

  /**
   A candidate is the beginning of the name, the index in parentheses, and the beginning of the
   name's last extension if it has one.
  */
  lemma CollisionShape(safeName: Text, index: nat, maxBytes: int)
    requires ValidLimit(maxBytes) && 1 <= index < MAX_ATTEMPTS
    ensures exists digits: Text, b: nat, e: nat ::
              && NumberOf(digits) == index && b <= |Stem(safeName)| && |Stem(safeName)| + e <= |safeName|
              && Collision(safeName, index, maxBytes) ==
                   Ok(safeName[..b] + ([0x20, 0x28] + digits + [0x29]) + safeName[|Stem(safeName)|..][..e])
  {
    var suffix, ext := Suffix(index), ExtensionOf(safeName, index, maxBytes);
    var room := Max(1, maxBytes - Utf8Length(suffix) - Utf8Length(ext));
    var b, e := KeptUnits(Stem(safeName), room), |ext|;
    DecimalSpells(index);
    assert Trim(Stem(safeName), room) == safeName[..b];
    assert ext == safeName[|Stem(safeName)|..][..e];
    assert Collision(safeName, index, maxBytes) ==
      Ok(safeName[..b] + ([0x20, 0x28] + Decimal(index) + [0x29]) + safeName[|Stem(safeName)|..][..e]);
  }

  /** Every candidate fits the limit, for every name and index. */
  lemma CollisionFits(safeName: Text, index: int, maxBytes: int)
    ensures var r := Collision(safeName, index, maxBytes);
            && (r.Ok? ==> Utf8Length(r.value) <= maxBytes)
            && (ValidLimit(maxBytes) && 1 <= index < MAX_ATTEMPTS ==> r.Ok?)
  {
    if ValidLimit(maxBytes) && 1 <= index < MAX_ATTEMPTS {
      var suffix, ext := Suffix(index), ExtensionOf(safeName, index, maxBytes);
      var base := Trim(Stem(safeName), Max(1, maxBytes - Utf8Length(suffix) - Utf8Length(ext)));
      ExtensionShape(safeName, index, maxBytes);
      TrimFits(Stem(safeName), Max(1, maxBytes - Utf8Length(suffix) - Utf8Length(ext)));
      JoinLength(base, suffix);
      JoinLength(base + suffix, ext);
    }
  }

  /** A text that ends in a numbered suffix shows its number. */
  lemma SuffixShowsIndex(a: Text, i: nat, b: Text, j: nat)
    requires a + Suffix(i) == b + Suffix(j)
    ensures i == j
  {
    DecimalDigits(i);
    DecimalDigits(j);
    LastIndexOfJoin(a + [SPACE], OPEN, Decimal(i) + [CLOSE]);
    LastIndexOfJoin(b + [SPACE], OPEN, Decimal(j) + [CLOSE]);
    assert a + [SPACE] + [OPEN] + (Decimal(i) + [CLOSE]) == a + Suffix(i);
    assert b + [SPACE] + [OPEN] + (Decimal(j) + [CLOSE]) == b + Suffix(j);
    assert |a| == |b|;
    assert (a + Suffix(i))[|a|..] == Suffix(i) && (b + Suffix(j))[|b|..] == Suffix(j);
    assert Suffix(i)[2..|Suffix(i)| - 1] == Decimal(i) && Suffix(j)[2..|Suffix(j)| - 1] == Decimal(j);
    DecimalIsInjective(i, j);
  }

  /** The numbered candidates of one name are pairwise different, at every limit. */
  lemma CollisionsDiffer(safeName: Text, i: nat, j: nat, maxBytes: int)
    requires ValidLimit(maxBytes) && 1 <= i < MAX_ATTEMPTS && 1 <= j < MAX_ATTEMPTS
    ensures Collision(safeName, i, maxBytes) == Collision(safeName, j, maxBytes) <==> i == j
  {
    if Numbered(safeName, i, maxBytes) == Numbered(safeName, j, maxBytes) {
      var ei, ej := ExtensionOf(safeName, i, maxBytes), ExtensionOf(safeName, j, maxBytes);
      var bi := Trim(Stem(safeName), Max(1, maxBytes - Utf8Length(Suffix(i)) - Utf8Length(ei)));
      var bj := Trim(Stem(safeName), Max(1, maxBytes - Utf8Length(Suffix(j)) - Utf8Length(ej)));
      ExtensionShape(safeName, i, maxBytes);
      ExtensionShape(safeName, j, maxBytes);
      if HasExtension(safeName) {
        SameBeforeDot(bi + Suffix(i), ei, bj + Suffix(j), ej);
      } else {
        assert bi + Suffix(i) + [] == bi + Suffix(i) && bj + Suffix(j) + [] == bj + Suffix(j);
      }
      SuffixShowsIndex(bi, i, bj, j);
    }
  }

  lemma SameBeforeDot(a: Text, e: Text, b: Text, f: Text)
    requires a + e == b + f
    requires e != [] && e[0] == DOT && DOT !in e[1..] && f != [] && f[0] == DOT && DOT !in f[1..]
    ensures a == b
  {
    assert e == [DOT] + e[1..] && f == [DOT] + f[1..];
    assert a + [DOT] + e[1..] == a + e && b + [DOT] + f[1..] == b + f;
    LastIndexOfJoin(a, DOT, e[1..]);
    LastIndexOfJoin(b, DOT, f[1..]);
    assert (a + e)[..|a|] == a && (b + f)[..|b|] == b;
  }
}
