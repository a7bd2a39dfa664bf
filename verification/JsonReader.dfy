/** A reader of JSON text, as sections 2 to 7 of RFC 8259 define it. */
module JsonReader {
  import opened Prelude
  import opened Utf16

  /** What a JSON text says; a number is its text, and members come in the order of the text. */
  datatype Value =
    | VNull
    | VBool(value: bool)
    | VNumber(text: Text)
    | VString(units: Text)
    | VArray(items: seq<Value>)
    | VObject(members: seq<Member>)

  datatype Member = Member(name: Text, value: Value)

  /** What was read, and what is left to read. */
  datatype Reading<+T> = Got(value: T, rest: Text) | Failed

  const OPEN_BRACKET: Unit := 0x5B
  const CLOSE_BRACKET: Unit := 0x5D
  const OPEN_BRACE: Unit := 0x7B
  const CLOSE_BRACE: Unit := 0x7D

  // ----- white space and literals -----

  predicate IsSpace(u: Unit) { u == 0x20 || u == 0x09 || u == 0x0A || u == 0x0D }

  function SkipSpace(s: Text): (rest: Text)
    ensures |rest| <= |s|
  {
    if s != [] && IsSpace(s[0]) then SkipSpace(s[1..]) else s
  }

  /** The literal names null, true and false. */
  function ReadLiteral(s: Text): (r: Reading<Value>)
    ensures r.Got? ==> |r.rest| < |s|
  {
    if [0x6E, 0x75, 0x6C, 0x6C] <= s then Got(VNull, s[4..])
    else if [0x74, 0x72, 0x75, 0x65] <= s then Got(VBool(true), s[4..])
    else if [0x66, 0x61, 0x6C, 0x73, 0x65] <= s then Got(VBool(false), s[5..])
    else Failed
  }

  // ----- numbers -----

  predicate IsDigit(u: Unit) { 0x30 <= u <= 0x39 }

  /** How many digits a text begins with. */
  function DigitCount(s: Text): (n: nat)
    ensures n <= |s|
  {
    if s != [] && IsDigit(s[0]) then 1 + DigitCount(s[1..]) else 0
  }

  predicate IsExponent(s: Text) {
    s == []
    || ((s[0] == 0x65 || s[0] == 0x45)
        && var digits := if |s| > 1 && (s[1] == 0x2B || s[1] == 0x2D) then s[2..] else s[1..];
           digits != [] && DigitCount(digits) == |digits|)
  }

  predicate IsFraction(s: Text) {
    if s != [] && s[0] == 0x2E
    then DigitCount(s[1..]) > 0 && IsExponent(s[1 + DigitCount(s[1..])..])
    else IsExponent(s)
  }

  /** number = [ minus ] int [ frac ] [ exp ], and int has no leading zero. */
  predicate IsNumber(s: Text) {
    var t := if s != [] && s[0] == 0x2D then s[1..] else s;
    DigitCount(t) > 0 && (t[0] == 0x30 ==> DigitCount(t) == 1) && IsFraction(t[DigitCount(t)..])
  }

  predicate IsNumberUnit(u: Unit) { IsDigit(u) || u == 0x2B || u == 0x2D || u == 0x2E || u == 0x45 || u == 0x65 }

  /** The longest stretch of units that numbers are made of; it must be a number. */
  function NumberRun(s: Text): (n: nat)
    ensures n <= |s|
  {
    if s != [] && IsNumberUnit(s[0]) then 1 + NumberRun(s[1..]) else 0
  }

  function ReadNumber(s: Text): (r: Reading<Value>)
    ensures r.Got? ==> |r.rest| < |s|
  {
    var n := NumberRun(s);
    if n > 0 && IsNumber(s[..n]) then Got(VNumber(s[..n]), s[n..]) else Failed
  }

  // ----- strings -----

  predicate IsHex(u: Unit) { IsDigit(u) || 0x41 <= u <= 0x46 || 0x61 <= u <= 0x66 }

  function HexValue(u: Unit): (n: nat)
    requires IsHex(u)
    ensures n < 16
  {
    if IsDigit(u) then u - 0x30 else if u <= 0x46 then u - 0x41 + 10 else u - 0x61 + 10
  }

  /** What a two-character escape stands for. */
  function Unescape(u: Unit): Option<Unit> {
    if u == 0x22 || u == 0x5C || u == 0x2F then Some(u)
    else if u == 0x62 then Some(0x08)
    else if u == 0x66 then Some(0x0C)
    else if u == 0x6E then Some(0x0A)
    else if u == 0x72 then Some(0x0D)
    else if u == 0x74 then Some(0x09)
    else None
  }

  function Prepend(u: Unit, r: Reading<Text>): Reading<Text> {
    match r
    case Got(units, rest) => Got([u] + units, rest)
    case Failed => Failed
  }

  /** The characters of a string, up to and with the closing quotation mark. */
  function ReadChars(s: Text): (r: Reading<Text>)
    ensures r.Got? ==> |r.rest| < |s|
    decreases |s|
  {
    if s == [] then Failed
    else if s[0] == 0x22 then Got([], s[1..])
    else if s[0] == 0x5C then
      if |s| >= 6 && s[1] == 0x75 && IsHex(s[2]) && IsHex(s[3]) && IsHex(s[4]) && IsHex(s[5]) then
        Prepend(HexValue(s[2]) * 0x1000 + HexValue(s[3]) * 0x100 + HexValue(s[4]) * 0x10 + HexValue(s[5]), ReadChars(s[6..]))
      else if |s| >= 2 && Unescape(s[1]).Some? then Prepend(Unescape(s[1]).value, ReadChars(s[2..]))
      else Failed
    else if s[0] < 0x20 then Failed
    else Prepend(s[0], ReadChars(s[1..]))
  }

  // ----- values -----

  function ReadValue(s: Text): (r: Reading<Value>)
    ensures r.Got? ==> |r.rest| < |s|
    decreases |s|, 1
  {
    var t := SkipSpace(s);
    if t == [] then Failed
    else if t[0] == 0x22 then
      match ReadChars(t[1..])
      case Got(units, rest) => Got(VString(units), rest)
      case Failed => Failed
    else if t[0] == OPEN_BRACKET then ReadArray(t)
    else if t[0] == OPEN_BRACE then ReadObject(t)
    else if IsNumberUnit(t[0]) then ReadNumber(t)
    else ReadLiteral(t)
  }

  function ReadArray(t: Text): (r: Reading<Value>)
    requires t != [] && t[0] == OPEN_BRACKET
    ensures r.Got? ==> |r.rest| < |t|
    decreases |t|, 0
  {
    var first := SkipSpace(t[1..]);
    if first != [] && first[0] == CLOSE_BRACKET then Got(VArray([]), first[1..])
    else
      match ReadItems(first)
      case Got(items, rest) => Got(VArray(items), rest)
      case Failed => Failed
  }

  /** One or more values, commas between them, and the closing bracket. */
  function ReadItems(s: Text): (r: Reading<seq<Value>>)
    ensures r.Got? ==> |r.rest| < |s|
    decreases |s|, 2
  {
    match ReadValue(s)
    case Failed => Failed
    case Got(value, rest) =>
      var t := SkipSpace(rest);
      if t == [] then Failed
      else if t[0] == CLOSE_BRACKET then Got([value], t[1..])
      else if t[0] == 0x2C then
        match ReadItems(t[1..])
        case Got(values, end) => Got([value] + values, end)
        case Failed => Failed
      else Failed
  }

  function ReadObject(t: Text): (r: Reading<Value>)
    requires t != [] && t[0] == OPEN_BRACE
    ensures r.Got? ==> |r.rest| < |t|
    decreases |t|, 0
  {
    var first := SkipSpace(t[1..]);
    if first != [] && first[0] == CLOSE_BRACE then Got(VObject([]), first[1..])
    else
      match ReadMembers(first)
      case Got(members, rest) => Got(VObject(members), rest)
      case Failed => Failed
  }

  function ReadMember(s: Text): (r: Reading<Member>)
    ensures r.Got? ==> |r.rest| < |s|
    decreases |s|, 2
  {
    var t := SkipSpace(s);
    if t == [] || t[0] != 0x22 then Failed
    else
      match ReadChars(t[1..])
      case Failed => Failed
      case Got(name, rest) =>
        var colon := SkipSpace(rest);
        if colon == [] || colon[0] != 0x3A then Failed
        else
          match ReadValue(colon[1..])
          case Got(value, end) => Got(Member(name, value), end)
          case Failed => Failed
  }

  /** One or more members, commas between them, and the closing brace. */
  function ReadMembers(s: Text): (r: Reading<seq<Member>>)
    ensures r.Got? ==> |r.rest| < |s|
    decreases |s|, 3
  {
    match ReadMember(s)
    case Failed => Failed
    case Got(member, rest) =>
      var t := SkipSpace(rest);
      if t == [] then Failed
      else if t[0] == CLOSE_BRACE then Got([member], t[1..])
      else if t[0] == 0x2C then
        match ReadMembers(t[1..])
        case Got(members, end) => Got([member] + members, end)
        case Failed => Failed
      else Failed
  }

  /** JSON-text = ws value ws. */
  function ReadJson(s: Text): Option<Value> {
    match ReadValue(s)
    case Got(value, rest) => if SkipSpace(rest) == [] then Some(value) else None
    case Failed => None
  }

  // ----- what numbers are made of -----

  predicate NumberUnits(s: Text) { forall i :: 0 <= i < |s| ==> IsNumberUnit(s[i]) }

  lemma {:induction false} LeadingDigits(s: Text)
    ensures NumberUnits(s[..DigitCount(s)])
  {
    if s != [] && IsDigit(s[0]) {
      LeadingDigits(s[1..]);
      assert forall i :: 1 <= i < DigitCount(s) ==> s[..DigitCount(s)][i] == s[1..][..DigitCount(s[1..])][i - 1];
    }
  }

  lemma SplitUnits(s: Text, n: nat)
    requires n <= |s| && NumberUnits(s[..n]) && NumberUnits(s[n..])
    ensures NumberUnits(s)
  {
    forall i | 0 <= i < |s|
      ensures IsNumberUnit(s[i])
    {
      if i < n {
        assert s[i] == s[..n][i];
      } else {
        assert s[i] == s[n..][i - n];
      }
    }
  }

  lemma ExponentUnits(s: Text)
    requires IsExponent(s)
    ensures NumberUnits(s)
  {
    if s != [] {
      var signed := |s| > 1 && (s[1] == 0x2B || s[1] == 0x2D);
      var n := if signed then 2 else 1;
      LeadingDigits(s[n..]);
      assert s[n..][..|s[n..]|] == s[n..];
      SplitUnits(s, n);
    }
  }

  lemma FractionUnits(s: Text)
    requires IsFraction(s)
    ensures NumberUnits(s)
  {
    if s != [] && s[0] == 0x2E {
      var t := s[1..];
      var d := DigitCount(t);
      LeadingDigits(t);
      assert t[d..] == s[1 + d..];
      ExponentUnits(s[1 + d..]);
      SplitUnits(t, d);
      SplitUnits(s, 1);
    } else {
      ExponentUnits(s);
    }
  }

  /** A number is made of such units only, and is not empty. */
  lemma NumberIsRun(s: Text)
    requires IsNumber(s)
    ensures NumberUnits(s) && s != [] && IsAscii(s)
  {
    var sign := if s[0] == 0x2D then 1 else 0;
    var t := s[sign..];
    LeadingDigits(t);
    FractionUnits(t[DigitCount(t)..]);
    SplitUnits(t, DigitCount(t));
    SplitUnits(s, sign);
    assert forall i :: 0 <= i < |s| ==> IsNumberUnit(s[i]);
  }
}
