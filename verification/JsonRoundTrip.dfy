/**
 What is printed can be read: a reader of JSON text gets back exactly what JSON can hold of the
 value, and a decoder of UTF-8 gets back the text.
*/
module JsonRoundTrip {
  import opened Prelude
  import opened Utf16
  import opened JsonPreflight
  import opened JsonReader
  import opened Utf8Decoder

  // ----- what a value is to a reader -----

  /** The part of a value that JSON can hold: unset array slots are null, omitted properties are absent. */
  function Plain(v: Json): Value
    decreases v, 0
  {
    match v
    case Bool(b) => VBool(b)
    case Num(text) => VNumber(text)
    case Str(units) => VString(units)
    case Arr(items) => VArray(PlainItems(items))
    case Obj(props) => VObject(PlainProps(props))
    case _ => VNull
  }

  function PlainItems(items: seq<Json>): (values: seq<Value>)
    ensures |values| == |items|
    decreases items, 1
  {
    if items == [] then [] else PlainItems(items[..|items| - 1]) + [Plain(items[|items| - 1])]
  }

  function PlainProps(props: seq<Prop>): seq<Member>
    decreases props, 1
  {
    if props == [] then []
    else
      var p := props[|props| - 1];
      PlainProps(props[..|props| - 1]) + if p.enumerable && !p.value.Unset? then [Member(p.key, Plain(p.value))] else []
  }

  // ----- strings -----

  lemma HexDigit(n: int)
    requires 0 <= n < 16
    ensures IsHex(Digit(n)) && HexValue(Digit(n)) == n
  {
  }

  lemma HexSum(point: int)
    requires 0 <= point < 0x1_0000
    ensures point / 0x1000 * 0x1000 + point / 0x100 % 16 * 0x100 + point / 0x10 % 16 * 0x10 + point % 16 == point
    ensures 0 <= point / 0x1000 < 16
  {
    assert point / 0x10 / 0x10 == point / 0x100 && point / 0x100 / 0x10 == point / 0x1000;
  }

  lemma HexReads(point: int, rest: Text)
    requires 0 <= point < 0x1_0000
    ensures ReadChars([0x5C, 0x75, Digit(point / 0x1000), Digit(point / 0x100 % 16), Digit(point / 0x10 % 16), Digit(point % 16)] + rest)
         == Prepend(point, ReadChars(rest))
  {
    HexSum(point);
    HexDigit(point / 0x1000);
    HexDigit(point / 0x100 % 16);
    HexDigit(point / 0x10 % 16);
    HexDigit(point % 16);
    SixUnits(Digit(point / 0x1000), Digit(point / 0x100 % 16), Digit(point / 0x10 % 16), Digit(point % 16), rest);
  }

  lemma SixUnits(a: Unit, b: Unit, c: Unit, d: Unit, rest: Text)
    requires IsHex(a) && IsHex(b) && IsHex(c) && IsHex(d)
    ensures HexValue(a) * 0x1000 + HexValue(b) * 0x100 + HexValue(c) * 0x10 + HexValue(d) < 0x1_0000
    ensures ReadChars([0x5C, 0x75, a, b, c, d] + rest)
         == Prepend(HexValue(a) * 0x1000 + HexValue(b) * 0x100 + HexValue(c) * 0x10 + HexValue(d), ReadChars(rest))
  {
    var s := [0x5C, 0x75, a, b, c, d] + rest;
    assert s[6..] == rest;
  }

  lemma ShortReads(point: int, rest: Text)
    requires HasShortEscape(point)
    ensures ReadChars([BACKSLASH, ShortEscape(point)] + rest) == Prepend(point, ReadChars(rest))
  {
    var s := [BACKSLASH, ShortEscape(point)] + rest;
    assert s[2..] == rest;
  }

  lemma PlainReads(u: Unit, rest: Text)
    requires u >= 0x20 && u != QUOTE && u != BACKSLASH
    ensures ReadChars([u] + rest) == Prepend(u, ReadChars(rest))
  {
    assert ([u] + rest)[1..] == rest;
  }

  /** An escaped code point reads as its units. */
  lemma EscapeReads(point: int, rest: Text)
    requires 0 <= point <= 0x10_FFFF
    ensures var r := ReadChars(rest);
            r.Got? ==> ReadChars(Escape(point) + rest) == Got(UnitsOf(point) + r.value, r.rest)
  {
    if HasShortEscape(point) {
      ShortReads(point, rest);
    } else if point < 0x20 || IsSurrogate(point) {
      HexReads(point, rest);
    } else if point < 0x1_0000 {
      PlainReads(point, rest);
    } else {
      PairReads(UnitsOf(point)[0], UnitsOf(point)[1], rest);
      assert Escape(point) == UnitsOf(point) == [UnitsOf(point)[0], UnitsOf(point)[1]];
    }
  }

  lemma PairReads(high: Unit, low: Unit, rest: Text)
    requires high >= 0xD800 && low >= 0xD800
    ensures var r := ReadChars(rest); r.Got? ==> ReadChars([high, low] + rest) == Got([high, low] + r.value, r.rest)
  {
    PlainReads(low, rest);
    PlainReads(high, [low] + rest);
    assert [high, low] + rest == [high] + ([low] + rest);
    assert ReadChars(rest).Got? ==> [high] + ([low] + ReadChars(rest).value) == [high, low] + ReadChars(rest).value;
  }

  lemma EscapedUnfold(s: Text)
    requires s != []
    ensures Escaped(s) == Escape(FirstPoint(s)) + Escaped(s[FirstWidth(s)..])
  {
  }

  /** The reading of a string, one escaped code point on. */
  lemma CharsStep(escape: Text, units: Text, others: Text, tail: Text, r: Reading<Text>)
    requires r.Got? && ReadChars(others + tail) == r && ReadChars(escape + (others + tail)) == Got(units + r.value, r.rest)
    ensures ReadChars(escape + others + tail) == Got(units + r.value, r.rest)
  {
    assert escape + others + tail == escape + (others + tail);
  }

  lemma {:induction false} EscapedReads(s: Text, rest: Text)
    ensures ReadChars(Escaped(s) + ([QUOTE] + rest)) == Got(s, rest)
    decreases |s|
  {
    if s == [] {
      assert Escaped(s) + ([QUOTE] + rest) == [QUOTE] + rest;
      assert ([QUOTE] + rest)[1..] == rest;
    } else {
      var n := FirstWidth(s);
      EscapedReads(s[n..], rest);
      EscapeReads(FirstPoint(s), Escaped(s[n..]) + ([QUOTE] + rest));
      UnitsOfFirst(s);
      EscapedUnfold(s);
      CharsStep(Escape(FirstPoint(s)), s[..n], Escaped(s[n..]), [QUOTE] + rest, Got(s[n..], rest));
      assert s == s[..n] + s[n..];
    }
  }

  lemma QuotedReads(s: Text, rest: Text)
    ensures Quoted(s) + rest != [] && (Quoted(s) + rest)[0] == QUOTE
    ensures ReadChars((Quoted(s) + rest)[1..]) == Got(s, rest)
  {
    EscapedReads(s, rest);
    assert (Quoted(s) + rest)[1..] == Escaped(s) + ([QUOTE] + rest);
  }

  // ----- values followed by something -----

  /** What can follow a value inside a JSON text, or nothing. */
  predicate Ends(rest: Text) { rest == [] || rest[0] == COMMA || rest[0] == CLOSE_BRACKET || rest[0] == CLOSE_BRACE }

  /** The text reads as this value wherever a value may stand, and begins with no space and no closing bracket. */
  ghost predicate Reads(text: Text, value: Value) {
    && text != [] && !IsSpace(text[0]) && text[0] != CLOSE_BRACKET
    && forall rest: Text :: Ends(rest) ==> ReadValue(text + rest) == Got(value, rest)
  }

  lemma {:induction false} RunOfNumber(text: Text, rest: Text)
    requires NumberUnits(text) && Ends(rest)
    ensures NumberRun(text + rest) == |text|
  {
    if text == [] {
      assert text + rest == rest;
    } else {
      assert (text + rest)[1..] == text[1..] + rest;
      RunOfNumber(text[1..], rest);
    }
  }

  lemma NumberReads(text: NumberText)
    ensures Reads(text, VNumber(text))
  {
    NumberIsRun(text);
    forall rest: Text | Ends(rest)
      ensures ReadValue(text + rest) == Got(VNumber(text), rest)
    {
      RunOfNumber(text, rest);
      assert (text + rest)[..|text|] == text && (text + rest)[|text|..] == rest;
      assert (text + rest)[0] == text[0] && IsNumberUnit(text[0]);
    }
  }

  lemma LiteralReads(v: Json)
    requires v.Null? || v.Bool?
    ensures Reads(Print(v), Plain(v))
  {
    var text := Print(v);
    forall rest: Text | Ends(rest)
      ensures ReadValue(text + rest) == Got(Plain(v), rest)
    {
      assert (text + rest)[..|text|] == text && (text + rest)[|text|..] == rest;
      assert (text + rest)[0] == text[0];
    }
  }

  lemma StringReads(s: Text)
    ensures Reads(Quoted(s), VString(s))
  {
    forall rest: Text | Ends(rest)
      ensures ReadValue(Quoted(s) + rest) == Got(VString(s), rest)
    {
      QuotedReads(s, rest);
    }
  }

  // ----- lists of texts with commas between them -----

  function Tail(texts: seq<Text>): Text { if texts == [] then [] else [COMMA] + texts[0] + Tail(texts[1..]) }

  function Joined(texts: seq<Text>): Text { if texts == [] then [] else texts[0] + Tail(texts[1..]) }

  lemma {:induction false} TailSnoc(texts: seq<Text>, text: Text)
    ensures Tail(texts + [text]) == Tail(texts) + [COMMA] + text
  {
    if texts == [] {
      assert texts + [text] == [text];
    } else {
      assert (texts + [text])[1..] == texts[1..] + [text];
      TailSnoc(texts[1..], text);
    }
  }

  lemma JoinedSnoc(texts: seq<Text>, text: Text)
    ensures Joined(texts + [text]) == if texts == [] then text else Joined(texts) + [COMMA] + text
  {
    if texts == [] {
      assert texts + [text] == [text];
    } else {
      assert (texts + [text])[1..] == texts[1..] + [text];
      TailSnoc(texts[1..], text);
    }
  }

  function ItemTexts(items: seq<Json>): (texts: seq<Text>)
    ensures |texts| == |items|
  {
    if items == [] then [] else ItemTexts(items[..|items| - 1]) + [ItemText(items[|items| - 1])]
  }

  function MemberText(p: Prop): Text { Quoted(p.key) + [COLON] + Print(p.value) }

  function MemberTexts(props: seq<Prop>): (texts: seq<Text>)
    ensures |texts| == CountIncluded(props)
  {
    if props == [] then []
    else
      var p := props[|props| - 1];
      MemberTexts(props[..|props| - 1]) + if Included(p) then [MemberText(p)] else []
  }

  lemma {:induction false} ItemsJoined(items: seq<Json>)
    ensures PrintItems(items) == Joined(ItemTexts(items))
  {
    if items != [] {
      var before, last := items[..|items| - 1], items[|items| - 1];
      ItemsJoined(before);
      JoinedSnoc(ItemTexts(before), ItemText(last));
    }
  }

  lemma Regroup(a: Text, b: Text, c: Text, d: Text, e: Text)
    ensures a + b + c + d + e == a + b + (c + d + e)
  {
  }

  lemma {:induction false} PropsJoined(props: seq<Prop>)
    ensures PrintProps(props) == Joined(MemberTexts(props))
  {
    if props != [] {
      var before, p := props[..|props| - 1], props[|props| - 1];
      PropsJoined(before);
      if Included(p) {
        JoinedSnoc(MemberTexts(before), MemberText(p));
        Regroup(PrintProps(before), Separator(CountIncluded(before)), Quoted(p.key), [COLON], Print(p.value));
        assert MemberTexts(before) == [] ==> PrintProps(before) + Separator(0) + MemberText(p) == MemberText(p);
      } else {
        assert MemberTexts(before) + [] == MemberTexts(before);
      }
    }
  }

  // ----- arrays -----

  lemma ReadsAt(text: Text, value: Value, rest: Text)
    requires Reads(text, value) && Ends(rest)
    ensures ReadValue(text + rest) == Got(value, rest) && text != [] && text[0] != CLOSE_BRACKET && !IsSpace(text[0])
  {
  }

  lemma LastItem(s: Text, value: Value, more: Text, rest: Text)
    requires ReadValue(s) == Got(value, more) && more == [CLOSE_BRACKET] + rest
    ensures ReadItems(s) == Got([value], rest)
  {
    assert more[1..] == rest;
  }

  lemma NextItem(s: Text, value: Value, more: Text, others: Text, values: seq<Value>, rest: Text)
    requires ReadValue(s) == Got(value, more) && more == [COMMA] + others && ReadItems(others) == Got(values, rest)
    ensures ReadItems(s) == Got([value] + values, rest)
  {
    assert more[1..] == others;
  }

  /** What follows the first of some joined texts. */
  lemma AfterFirst(texts: seq<Text>, end: Text)
    requires texts != []
    ensures Joined(texts) + end == texts[0] + (Tail(texts[1..]) + end)
    ensures Tail(texts[1..]) + end == if |texts| == 1 then end else [COMMA] + (Joined(texts[1..]) + end)
  {
  }

  lemma {:induction false} ItemsRead(texts: seq<Text>, values: seq<Value>, rest: Text)
    requires |texts| == |values| > 0 && forall i :: 0 <= i < |texts| ==> Reads(texts[i], values[i])
    ensures ReadItems(Joined(texts) + ([CLOSE_BRACKET] + rest)) == Got(values, rest)
  {
    var end := [CLOSE_BRACKET] + rest;
    var s, more := Joined(texts) + end, Tail(texts[1..]) + end;
    AfterFirst(texts, end);
    ReadsAt(texts[0], values[0], more);
    if |texts| == 1 {
      LastItem(s, values[0], more, rest);
      assert values == [values[0]];
    } else {
      ItemsRead(texts[1..], values[1..], rest);
      NextItem(s, values[0], more, Joined(texts[1..]) + end, values[1..], rest);
      assert values == [values[0]] + values[1..];
    }
  }

  lemma ArrayReads(texts: seq<Text>, values: seq<Value>)
    requires |texts| == |values| && forall i :: 0 <= i < |texts| ==> Reads(texts[i], values[i])
    ensures Reads([OPEN_BRACKET] + Joined(texts) + [CLOSE_BRACKET], VArray(values))
  {
    var text := [OPEN_BRACKET] + Joined(texts) + [CLOSE_BRACKET];
    forall rest: Text | Ends(rest)
      ensures ReadValue(text + rest) == Got(VArray(values), rest)
    {
      var inside := Joined(texts) + ([CLOSE_BRACKET] + rest);
      assert text + rest == [OPEN_BRACKET] + inside;
      if texts == [] {
        assert inside == [CLOSE_BRACKET] + rest;
        EmptyArray(inside, rest);
      } else {
        ItemsRead(texts, values, rest);
        ReadsAt(texts[0], values[0], []);
        assert inside[0] == texts[0][0];
        FullArray(inside, values, rest);
      }
    }
  }

  lemma EmptyArray(inside: Text, rest: Text)
    requires inside == [CLOSE_BRACKET] + rest
    ensures ReadValue([OPEN_BRACKET] + inside) == Got(VArray([]), rest)
  {
    assert ([OPEN_BRACKET] + inside)[1..] == inside && inside[1..] == rest;
    assert ReadArray([OPEN_BRACKET] + inside) == Got(VArray([]), rest);
  }

  lemma FullArray(inside: Text, values: seq<Value>, rest: Text)
    requires inside != [] && !IsSpace(inside[0]) && inside[0] != CLOSE_BRACKET && ReadItems(inside) == Got(values, rest)
    ensures ReadValue([OPEN_BRACKET] + inside) == Got(VArray(values), rest)
  {
    assert ([OPEN_BRACKET] + inside)[1..] == inside;
    assert ReadArray([OPEN_BRACKET] + inside) == Got(VArray(values), rest);
  }

  // ----- objects -----

  /** The text reads as this member. */
  ghost predicate ReadsMember(text: Text, member: Member) {
    && text != [] && text[0] == QUOTE
    && forall rest: Text :: Ends(rest) ==> ReadMember(text + rest) == Got(member, rest)
  }

  lemma MemberReads(p: Prop, value: Value)
    requires Reads(Print(p.value), value)
    ensures ReadsMember(MemberText(p), Member(p.key, value))
  {
    forall rest: Text | Ends(rest)
      ensures ReadMember(MemberText(p) + rest) == Got(Member(p.key, value), rest)
    {
      var after := [COLON] + (Print(p.value) + rest);
      QuotedReads(p.key, after);
      ReadsAt(Print(p.value), value, rest);
      FourParts(Quoted(p.key), [COLON], Print(p.value), rest);
      ColonReads(MemberText(p) + rest, p.key, after, Print(p.value) + rest, value, rest);
    }
  }

  lemma FourParts(a: Text, b: Text, c: Text, d: Text)
    ensures a + b + c + d == a + (b + (c + d))
  {
  }

  lemma ColonReads(s: Text, name: Text, after: Text, text: Text, value: Value, rest: Text)
    requires s != [] && s[0] == QUOTE && ReadChars(s[1..]) == Got(name, after)
    requires after == [COLON] + text && ReadValue(text) == Got(value, rest)
    ensures ReadMember(s) == Got(Member(name, value), rest)
  {
    assert after[1..] == text;
  }

  lemma ReadsMemberAt(text: Text, member: Member, rest: Text)
    requires ReadsMember(text, member) && Ends(rest)
    ensures ReadMember(text + rest) == Got(member, rest) && text != [] && text[0] == QUOTE
  {
  }

  lemma LastMember(s: Text, member: Member, more: Text, rest: Text)
    requires ReadMember(s) == Got(member, more) && more == [CLOSE_BRACE] + rest
    ensures ReadMembers(s) == Got([member], rest)
  {
    assert more[1..] == rest;
  }

  lemma NextMember(s: Text, member: Member, more: Text, others: Text, members: seq<Member>, rest: Text)
    requires ReadMember(s) == Got(member, more) && more == [COMMA] + others && ReadMembers(others) == Got(members, rest)
    ensures ReadMembers(s) == Got([member] + members, rest)
  {
    assert more[1..] == others;
  }

  lemma {:induction false} MembersRead(texts: seq<Text>, members: seq<Member>, rest: Text)
    requires |texts| == |members| > 0 && forall i :: 0 <= i < |texts| ==> ReadsMember(texts[i], members[i])
    ensures ReadMembers(Joined(texts) + ([CLOSE_BRACE] + rest)) == Got(members, rest)
  {
    var end := [CLOSE_BRACE] + rest;
    var s, more := Joined(texts) + end, Tail(texts[1..]) + end;
    AfterFirst(texts, end);
    ReadsMemberAt(texts[0], members[0], more);
    if |texts| == 1 {
      LastMember(s, members[0], more, rest);
      assert members == [members[0]];
    } else {
      MembersRead(texts[1..], members[1..], rest);
      NextMember(s, members[0], more, Joined(texts[1..]) + end, members[1..], rest);
      assert members == [members[0]] + members[1..];
    }
  }

  lemma ObjectReads(texts: seq<Text>, members: seq<Member>)
    requires |texts| == |members| && forall i :: 0 <= i < |texts| ==> ReadsMember(texts[i], members[i])
    ensures Reads([OPEN_BRACE] + Joined(texts) + [CLOSE_BRACE], VObject(members))
  {
    var text := [OPEN_BRACE] + Joined(texts) + [CLOSE_BRACE];
    forall rest: Text | Ends(rest)
      ensures ReadValue(text + rest) == Got(VObject(members), rest)
    {
      var inside := Joined(texts) + ([CLOSE_BRACE] + rest);
      assert text + rest == [OPEN_BRACE] + inside;
      if texts == [] {
        assert inside == [CLOSE_BRACE] + rest;
        EmptyObject(inside, rest);
      } else {
        MembersRead(texts, members, rest);
        ReadsMemberAt(texts[0], members[0], []);
        assert inside[0] == texts[0][0];
        FullObject(inside, members, rest);
      }
    }
  }

  lemma EmptyObject(inside: Text, rest: Text)
    requires inside == [CLOSE_BRACE] + rest
    ensures ReadValue([OPEN_BRACE] + inside) == Got(VObject([]), rest)
  {
    assert ([OPEN_BRACE] + inside)[1..] == inside && inside[1..] == rest;
    assert ReadObject([OPEN_BRACE] + inside) == Got(VObject([]), rest);
  }

  lemma FullObject(inside: Text, members: seq<Member>, rest: Text)
    requires inside != [] && inside[0] == QUOTE && ReadMembers(inside) == Got(members, rest)
    ensures ReadValue([OPEN_BRACE] + inside) == Got(VObject(members), rest)
  {
    assert ([OPEN_BRACE] + inside)[1..] == inside;
    assert ReadObject([OPEN_BRACE] + inside) == Got(VObject(members), rest);
  }

  // ----- the round trip -----

  /** Every part of a value JSON can hold reads back. */
  lemma {:induction false} ValueReads(v: Json)
    requires CostOf(v).sound
    ensures Reads(Print(v), Plain(v))
    decreases v, 0
  {
    match v
    case Num(text) => NumberReads(text);
    case Str(units) => StringReads(units);
    case Arr(items) =>
      ItemsReadBack(items);
      ItemsJoined(items);
      ArrayReads(ItemTexts(items), PlainItems(items));
    case Obj(props) =>
      PropsReadBack(props);
      PropsJoined(props);
      ObjectReads(MemberTexts(props), PlainProps(props));
    case _ => LiteralReads(v);
  }

  lemma {:induction false} ItemsReadBack(items: seq<Json>)
    requires CostOfItems(items).sound
    ensures forall i :: 0 <= i < |items| ==> Reads(ItemTexts(items)[i], PlainItems(items)[i])
    decreases items, 1
  {
    if items != [] {
      var before, last := items[..|items| - 1], items[|items| - 1];
      ItemsReadBack(before);
      if last.Unset? {
        LiteralReads(Null);
      } else {
        ValueReads(last);
      }
    }
  }

  lemma {:induction false} PropsReadBack(props: seq<Prop>)
    requires CostOfProps(props).sound
    ensures |MemberTexts(props)| == |PlainProps(props)|
    ensures forall i :: 0 <= i < |MemberTexts(props)| ==> ReadsMember(MemberTexts(props)[i], PlainProps(props)[i])
    decreases props, 1
  {
    if props != [] {
      var before, p := props[..|props| - 1], props[|props| - 1];
      PropsReadBack(before);
      if Included(p) {
        ValueReads(p.value);
        MemberReads(p, Plain(p.value));
      }
    }
  }

  /** Reading the printed text gives back the value, for every value JSON can hold. */
  lemma PrintReadsBack(v: Json)
    requires CostOf(v).sound
    ensures ReadJson(Print(v)) == Some(Plain(v))
  {
    ValueReads(v);
    assert Print(v) + [] == Print(v);
    assert Ends([]);
  }

  // ----- the printed text in UTF-8 -----

  lemma EscapeWellFormed(point: int)
    requires 0 <= point <= 0x10_FFFF
    ensures WellFormed(Escape(point))
  {
    if HasShortEscape(point) || point < 0x20 || IsSurrogate(point) {
      AsciiIsWellFormed(Escape(point));
    } else if point < 0x1_0000 {
      assert Escape(point)[1..] == [];
    } else {
      assert FirstWidth(Escape(point)) == 2 && Escape(point)[2..] == [];
    }
  }

  lemma {:induction false} EscapedWellFormed(s: Text)
    ensures WellFormed(Escaped(s))
    decreases |s|
  {
    if s != [] {
      EscapedWellFormed(s[FirstWidth(s)..]);
      EscapeWellFormed(FirstPoint(s));
      WellFormedConcat(Escape(FirstPoint(s)), Escaped(s[FirstWidth(s)..]));
    }
  }

  lemma BracketedWellFormed(open: Text, s: Text, close: Text)
    requires IsAscii(open) && WellFormed(s) && IsAscii(close)
    ensures WellFormed(open + s + close)
  {
    AsciiIsWellFormed(open);
    AsciiIsWellFormed(close);
    WellFormedConcat(open, s);
    WellFormedConcat(open + s, close);
  }

  lemma QuotedWellFormed(s: Text)
    ensures WellFormed(Quoted(s))
  {
    EscapedWellFormed(s);
    BracketedWellFormed([QUOTE], Escaped(s), [QUOTE]);
  }

  lemma {:induction false} PrintWellFormed(v: Json)
    requires CostOf(v).sound
    ensures WellFormed(Print(v))
    decreases v, 0
  {
    match v
    case Num(text) =>
      NumberIsRun(text);
      AsciiIsWellFormed(text);
    case Str(units) => QuotedWellFormed(units);
    case Arr(items) =>
      ItemsWellFormed(items);
      BracketedWellFormed([OPEN_BRACKET], PrintItems(items), [CLOSE_BRACKET]);
    case Obj(props) =>
      PropsWellFormed(props);
      BracketedWellFormed([OPEN_BRACE], PrintProps(props), [CLOSE_BRACE]);
    case _ => AsciiIsWellFormed(Print(v));
  }

  lemma {:induction false} ItemsWellFormed(items: seq<Json>)
    requires CostOfItems(items).sound
    ensures WellFormed(PrintItems(items))
    decreases items, 1
  {
    if items != [] {
      var before, last := items[..|items| - 1], items[|items| - 1];
      ItemsWellFormed(before);
      if last.Unset? {
        AsciiIsWellFormed(NULL_TEXT);
      } else {
        PrintWellFormed(last);
      }
      AsciiIsWellFormed(Separator(|items| - 1));
      WellFormedConcat(PrintItems(before), Separator(|items| - 1));
      WellFormedConcat(PrintItems(before) + Separator(|items| - 1), ItemText(last));
    }
  }

  lemma {:induction false} PropsWellFormed(props: seq<Prop>)
    requires CostOfProps(props).sound
    ensures WellFormed(PrintProps(props))
    decreases props, 1
  {
    if props != [] {
      var before, p := props[..|props| - 1], props[|props| - 1];
      PropsWellFormed(before);
      if Included(p) {
        PrintWellFormed(p.value);
        PropWellFormed(PrintProps(before), Separator(CountIncluded(before)), p);
      }
    }
  }

  lemma PropWellFormed(before: Text, separator: Text, p: Prop)
    requires WellFormed(before) && IsAscii(separator) && WellFormed(Print(p.value))
    ensures WellFormed(before + separator + Quoted(p.key) + [COLON] + Print(p.value))
  {
    AsciiIsWellFormed(separator);
    AsciiIsWellFormed([COLON]);
    QuotedWellFormed(p.key);
    WellFormedConcat(before, separator);
    WellFormedConcat(before + separator, Quoted(p.key));
    WellFormedConcat(before + separator + Quoted(p.key), [COLON]);
    WellFormedConcat(before + separator + Quoted(p.key) + [COLON], Print(p.value));
  }

  /** The encryption's plaintext decodes to the printed text, lone surrogates in the value notwithstanding. */
  lemma PrintDecodes(v: Json)
    requires CostOf(v).sound
    ensures Decode(Utf8(Print(v))) == Some(Print(v))
  {
    PrintWellFormed(v);
    DecodesBack(Print(v));
  }

  /**
   stringifyJsonValue: the text is returned exactly for encryptable values. The check of the
   length after printing is the assertion: it cannot fail once the preflight passed. Whoever
   decodes and reads the text gets the value.
  */
  method StringifyJsonValue(v: Json) returns (r: Result<Text>)
    ensures r == if Encryptable(v) then Ok(Print(v)) else Err
    ensures r.Ok? ==> ReadJson(r.value) == Some(Plain(v)) && Decode(Utf8(r.value)) == Some(r.value)
  {
    var budget := new Budget(MAX_PLAINTEXT_BYTES, MAX_NODES);
    var ok := budget.Visit(v, 0);
    if CostOf(v).sound {
      CostIsPrinted(v);
    }
    if !ok {
      return Err;
    }
    var serialized := Print(v);
    assert |Utf8(serialized)| <= MAX_PLAINTEXT_BYTES;
    PrintReadsBack(v);
    PrintDecodes(v);
    return Ok(serialized);
  }
}
