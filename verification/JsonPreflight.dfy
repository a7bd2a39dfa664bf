/**
 Byte accounting of JSON values before they are encrypted.

 The preflight charges a value against a budget of bytes, nodes and depth without printing it;
 it is exact: what it charges is the length of the UTF-8 encoding of what the printer prints.
*/
module JsonPreflight {
  import opened Prelude
  import opened Utf16
  import JsonReader

  /** What String() makes of a finite number is a JSON number. */
  type NumberText = s: Text | JsonReader.IsNumber(s) witness [0x30]

  /**
   A value as the preflight meets it. `Unset` is undefined, a function or a symbol; `Hole` is a
   missing array slot or an accessor; `Alien` is everything else JSON cannot hold, among it
   objects with prototypes, with a `toJSON` of their own or with symbol keys. A number is the
   text that String() makes of it.
  */
  datatype Json =
    | Null
    | Bool(value: bool)
    | Num(text: NumberText)
    | NotFinite
    | Str(units: Text)
    | Arr(items: seq<Json>)
    | Obj(props: seq<Prop>)
    | Unset
    | Hole
    | Alien

  datatype Prop = Prop(key: Text, value: Json, enumerable: bool)

  const MAX_ENCRYPTED_JSON_CHARS: nat := 196608
  const MAX_PLAINTEXT_BYTES: nat := MAX_ENCRYPTED_JSON_CHARS / 4 * 3 - 12 - 16
  const MAX_DEPTH: nat := 32
  const MAX_NODES: nat := 10_000

  // ----- the printer -----

  const QUOTE: Unit := 0x22
  const BACKSLASH: Unit := 0x5C
  const COMMA: Unit := 0x2C
  const COLON: Unit := 0x3A

  function Digit(n: int): Unit
    requires 0 <= n < 16
  {
    if n < 10 then 0x30 + n else 0x61 + n - 10
  }

  predicate HasShortEscape(point: int) { point in {0x22, 0x5C, 0x08, 0x0C, 0x0A, 0x0D, 0x09} }

  function ShortEscape(point: int): Unit
    requires HasShortEscape(point)
  {
    if point == 0x08 then 0x62 else if point == 0x0C then 0x66 else if point == 0x0A then 0x6E
    else if point == 0x0D then 0x72 else if point == 0x09 then 0x74 else if point == 0x22 then QUOTE else BACKSLASH
  }

  /** One code point inside a JSON string literal (QuoteJSONString of ECMA-262). */
  function Escape(point: int): Text
    requires 0 <= point <= 0x10_FFFF
  {
    if HasShortEscape(point) then [BACKSLASH, ShortEscape(point)]
    else if point < 0x20 || IsSurrogate(point) then
      [BACKSLASH, 0x75, Digit(point / 0x1000), Digit(point / 0x100 % 16), Digit(point / 0x10 % 16), Digit(point % 16)]
    else if point < 0x1_0000 then [point]
    else [0xD800 + (point - 0x1_0000) / 0x400, 0xDC00 + (point - 0x1_0000) % 0x400]
  }

  function Escaped(s: Text): Text {
    if s == [] then [] else Escape(FirstPoint(s)) + Escaped(s[FirstWidth(s)..])
  }

  function Quoted(s: Text): Text { [QUOTE] + Escaped(s) + [QUOTE] }

  predicate Included(p: Prop) { p.enumerable && !p.value.Unset? }

  function CountIncluded(props: seq<Prop>): nat {
    if props == [] then 0
    else CountIncluded(props[..|props| - 1]) + if Included(props[|props| - 1]) then 1 else 0
  }

  function Separator(count: nat): Text { if count > 0 then [COMMA] else [] }

  const NULL_TEXT: Text := [0x6E, 0x75, 0x6C, 0x6C]

  /** stringifyPreflightedJsonValue. */
  function Print(v: Json): Text
    decreases v, 0
  {
    match v
    case Null => NULL_TEXT
    case Bool(b) => if b then [0x74, 0x72, 0x75, 0x65] else [0x66, 0x61, 0x6C, 0x73, 0x65]
    case Num(text) => text
    case Str(units) => Quoted(units)
    case Arr(items) => [0x5B] + PrintItems(items) + [0x5D]
    case Obj(props) => [0x7B] + PrintProps(props) + [0x7D]
    case _ => []
  }

  function PrintItems(items: seq<Json>): Text
    decreases items
  {
    if items == [] then []
    else PrintItems(items[..|items| - 1]) + Separator(|items| - 1) + ItemText(items[|items| - 1])
  }

  /** An array slot that holds nothing JSON knows prints as null. */
  function ItemText(v: Json): Text
    decreases v, 1
  {
    if v.Unset? then NULL_TEXT else Print(v)
  }

  function PrintProps(props: seq<Prop>): Text
    decreases props
  {
    if props == [] then []
    else
      var before, p := props[..|props| - 1], props[|props| - 1];
      if !Included(p) then PrintProps(before)
      else PrintProps(before) + Separator(CountIncluded(before)) + Quoted(p.key) + [COLON] + Print(p.value)
  }

  // ----- what a value costs -----

  /** Bytes to print, nodes to visit, levels below, and whether JSON can hold it. */
  datatype Cost = Cost(bytes: nat, nodes: nat, height: nat, sound: bool)

  const FREE := Cost(0, 0, 0, true)

  function PointCost(point: int): nat {
    if HasShortEscape(point) then 2
    else if point < 0x20 || IsSurrogate(point) then 6
    else if point < 0x80 then 1
    else if point < 0x800 then 2
    else if point < 0x1_0000 then 3
    else 4
  }

  function TextCost(s: Text): nat {
    if s == [] then 0 else PointCost(FirstPoint(s)) + TextCost(s[FirstWidth(s)..])
  }

  /** A value one level down joins what was counted before it. */
  function Join(c: Cost, extra: nat, d: Cost): Cost {
    Cost(c.bytes + extra + d.bytes, c.nodes + d.nodes, Max(c.height, d.height + 1), c.sound && d.sound)
  }

  function CostOf(v: Json): Cost
    decreases v
  {
    match v
    case Null => Cost(4, 1, 0, true)
    case Bool(b) => Cost(if b then 4 else 5, 1, 0, true)
    case Num(text) => Cost(|text|, 1, 0, true)
    case Str(units) => Cost(2 + TextCost(units), 1, 0, true)
    case Arr(items) =>
      var c := CostOfItems(items);
      Cost(c.bytes + 2, c.nodes + 1, c.height, c.sound && |items| <= MAX_NODES)
    case Obj(props) =>
      var c := CostOfProps(props);
      Cost(c.bytes + 2, c.nodes + 1, c.height, c.sound)
    case _ => Cost(0, 1, 0, false)
  }

  function CostOfItems(items: seq<Json>): Cost
    decreases items
  {
    if items == [] then FREE
    else
      var c, last := CostOfItems(items[..|items| - 1]), items[|items| - 1];
      var comma := if |items| > 1 then 1 else 0;
      if last.Unset? then c.(bytes := c.bytes + comma + 4) else Join(c, comma, CostOf(last))
  }

  function CostOfProps(props: seq<Prop>): Cost
    decreases props
  {
    if props == [] then FREE
    else
      var before, p := props[..|props| - 1], props[|props| - 1];
      var c := CostOfProps(before);
      if !Included(p) then c
      else Join(c, (if CountIncluded(before) > 0 then 1 else 0) + 2 + TextCost(p.key) + 1, CostOf(p.value))
  }

  // ----- the nodes and levels it counts -----

  /** The values the preflight looks at: the value and all its parts, omitted properties and unset slots excepted. */
  function Parts(v: Json): seq<Json>
    decreases v, 1
  {
    match v
    case Arr(items) => [v] + PartsOfItems(items)
    case Obj(props) => [v] + PartsOfProps(props)
    case _ => [v]
  }

  function PartsOfItems(items: seq<Json>): seq<Json>
    decreases items, 2
  {
    if items == [] then []
    else
      var last := items[|items| - 1];
      PartsOfItems(items[..|items| - 1]) + if last.Unset? then [] else Parts(last)
  }

  function PartsOfProps(props: seq<Prop>): seq<Json>
    decreases props, 2
  {
    if props == [] then []
    else
      var p := props[|props| - 1];
      PartsOfProps(props[..|props| - 1]) + if p.enumerable && !p.value.Unset? then Parts(p.value) else []
  }

  /** Some part lies this many levels below the value. */
  predicate HasLevel(v: Json, n: nat)
    decreases v
  {
    n == 0
    || (v.Arr? && exists i :: 0 <= i < |v.items| && !v.items[i].Unset? && HasLevel(v.items[i], n - 1))
    || (v.Obj? && exists i :: 0 <= i < |v.props| && Included(v.props[i]) && HasLevel(v.props[i].value, n - 1))
  }

  lemma {:induction false} NodesAreParts(v: Json)
    ensures CostOf(v).nodes == |Parts(v)|
    decreases v, 1
  {
    match v
    case Arr(items) => ItemNodesAreParts(items);
    case Obj(props) => PropNodesAreParts(props);
    case _ =>
  }

  lemma {:induction false} ItemNodesAreParts(items: seq<Json>)
    ensures CostOfItems(items).nodes == |PartsOfItems(items)|
    decreases items, 2
  {
    if items != [] {
      ItemNodesAreParts(items[..|items| - 1]);
      NodesAreParts(items[|items| - 1]);
    }
  }

  lemma {:induction false} PropNodesAreParts(props: seq<Prop>)
    ensures CostOfProps(props).nodes == |PartsOfProps(props)|
    decreases props, 2
  {
    if props != [] {
      PropNodesAreParts(props[..|props| - 1]);
      NodesAreParts(props[|props| - 1].value);
    }
  }

  /** The height is that of the deepest part. */
  lemma {:induction false} HeightIsDeepest(v: Json, n: nat)
    ensures HasLevel(v, n) <==> n <= CostOf(v).height
    decreases v, 1
  {
    if n > 0 {
      match v
      case Arr(items) => ItemHeight(items, n);
      case Obj(props) => PropHeight(props, n);
      case _ =>
    }
  }

  lemma {:induction false} ItemHeight(items: seq<Json>, n: nat)
    requires n > 0
    ensures (exists i :: 0 <= i < |items| && !items[i].Unset? && HasLevel(items[i], n - 1)) <==> n <= CostOfItems(items).height
    decreases items, 2
  {
    if items != [] {
      var before, last := items[..|items| - 1], items[|items| - 1];
      ItemHeight(before, n);
      HeightIsDeepest(last, n - 1);
      assert forall i :: 0 <= i < |before| ==> before[i] == items[i];
    }
  }

  lemma {:induction false} PropHeight(props: seq<Prop>, n: nat)
    requires n > 0
    ensures (exists i :: 0 <= i < |props| && Included(props[i]) && HasLevel(props[i].value, n - 1)) <==> n <= CostOfProps(props).height
    decreases props, 2
  {
    if props != [] {
      var before, last := props[..|props| - 1], props[|props| - 1];
      PropHeight(before, n);
      HeightIsDeepest(last.value, n - 1);
      assert forall i :: 0 <= i < |before| ==> before[i] == props[i];
    }
  }

  // ----- the cost is what is printed -----

  lemma EscapeCost(point: int)
    requires 0 <= point <= 0x10_FFFF
    ensures |Utf8(Escape(point))| == PointCost(point) && Closed(Escape(point))
  {
    var e := Escape(point);
    if HasShortEscape(point) || point < 0x20 || IsSurrogate(point) {
      Utf8OfAscii(e);
    } else if point < 0x1_0000 {
      assert e[1..] == [];
    } else {
      assert FirstWidth(e) == 2 && e[2..] == [];
      assert (point - 0x1_0000) / 0x400 * 0x400 + (point - 0x1_0000) % 0x400 == point - 0x1_0000;
    }
  }

  lemma {:induction false} EscapedCost(s: Text)
    ensures |Utf8(Escaped(s))| == TextCost(s) && Closed(Escaped(s))
    decreases |s|
  {
    if s != [] {
      var e, rest := Escape(FirstPoint(s)), s[FirstWidth(s)..];
      EscapeCost(FirstPoint(s));
      EscapedCost(rest);
      Utf8Concat(e, Escaped(rest));
      ClosedConcat(e, Escaped(rest));
    }
  }

  /** Text between two ASCII pieces. */
  lemma BracketedCost(open: Text, s: Text, close: Text)
    requires IsAscii(open) && Closed(s) && IsAscii(close)
    ensures |Utf8(open + s + close)| == |open| + |Utf8(s)| + |close|
    ensures close != [] ==> Closed(open + s + close)
  {
    Utf8OfAscii(open);
    Utf8OfAscii(close);
    Utf8Concat(open, s);
    ClosedConcat(open, s);
    Utf8Concat(open + s, close);
  }

  lemma QuotedCost(s: Text)
    ensures |Utf8(Quoted(s))| == 2 + TextCost(s) && Closed(Quoted(s))
  {
    EscapedCost(s);
    BracketedCost([QUOTE], Escaped(s), [QUOTE]);
  }

  lemma JoinedCost(a: Text, b: Text)
    requires Closed(a) && Closed(b)
    ensures |Utf8(a + b)| == |Utf8(a)| + |Utf8(b)| && Closed(a + b)
  {
    Utf8Concat(a, b);
    ClosedConcat(a, b);
  }

  lemma SeparatorCost(count: nat)
    ensures |Utf8(Separator(count))| == (if count > 0 then 1 else 0) && Closed(Separator(count))
  {
    Utf8OfAscii(Separator(count));
  }

  /** What the preflight counts for a sound value is the length of its printed form in UTF-8. */
  lemma {:induction false} CostIsPrinted(v: Json)
    requires CostOf(v).sound
    ensures |Utf8(Print(v))| == CostOf(v).bytes && Closed(Print(v))
    decreases v
  {
    match v
    case Null => Utf8OfAscii(Print(v));
    case Bool(_) => Utf8OfAscii(Print(v));
    case Num(text) =>
      JsonReader.NumberIsRun(text);
      Utf8OfAscii(text);
    case Str(units) => QuotedCost(units);
    case Arr(items) =>
      ItemsCostIsPrinted(items);
      BracketedCost([0x5B], PrintItems(items), [0x5D]);
    case Obj(props) =>
      PropsCostIsPrinted(props);
      BracketedCost([0x7B], PrintProps(props), [0x7D]);
  }

  lemma {:induction false} ItemsCostIsPrinted(items: seq<Json>)
    requires CostOfItems(items).sound
    ensures |Utf8(PrintItems(items))| == CostOfItems(items).bytes && Closed(PrintItems(items))
    decreases items
  {
    if items != [] {
      var before, last := items[..|items| - 1], items[|items| - 1];
      ItemsCostIsPrinted(before);
      if !last.Unset? {
        CostIsPrinted(last);
      }
      ItemTextCost(last);
      AppendedCost(PrintItems(before), |items| - 1, ItemText(last));
    }
  }

  lemma ItemTextCost(v: Json)
    requires v.Unset? || (|Utf8(Print(v))| == CostOf(v).bytes && Closed(Print(v)))
    ensures |Utf8(ItemText(v))| == (if v.Unset? then 4 else CostOf(v).bytes) && Closed(ItemText(v))
  {
    if v.Unset? {
      Utf8OfAscii(NULL_TEXT);
    }
  }

  lemma AppendedCost(before: Text, count: nat, text: Text)
    requires Closed(before) && Closed(text)
    ensures var all := before + Separator(count) + text;
            |Utf8(all)| == |Utf8(before)| + (if count > 0 then 1 else 0) + |Utf8(text)| && Closed(all)
  {
    SeparatorCost(count);
    JoinedCost(before, Separator(count));
    JoinedCost(before + Separator(count), text);
  }

  lemma {:induction false} PropsCostIsPrinted(props: seq<Prop>)
    requires CostOfProps(props).sound
    ensures |Utf8(PrintProps(props))| == CostOfProps(props).bytes && Closed(PrintProps(props))
    decreases props
  {
    if props != [] {
      var before, p := props[..|props| - 1], props[|props| - 1];
      PropsCostIsPrinted(before);
      if Included(p) {
        CostIsPrinted(p.value);
        PropCostIsPrinted(PrintProps(before), CountIncluded(before), p);
      }
    }
  }

  lemma PropCostIsPrinted(before: Text, count: nat, p: Prop)
    requires Closed(before) && Closed(Print(p.value))
    ensures var text := before + Separator(count) + Quoted(p.key) + [COLON] + Print(p.value);
            && |Utf8(text)| == |Utf8(before)| + (if count > 0 then 1 else 0) + 2 + TextCost(p.key) + 1 + |Utf8(Print(p.value))|
            && Closed(text)
  {
    SeparatorCost(count);
    QuotedCost(p.key);
    Utf8OfAscii([COLON]);
    JoinedCost(before, Separator(count));
    JoinedCost(before + Separator(count), Quoted(p.key));
    JoinedCost(before + Separator(count) + Quoted(p.key), [COLON]);
    JoinedCost(before + Separator(count) + Quoted(p.key) + [COLON], Print(p.value));
  }

  // ----- the preflight -----

  predicate Fits(c: Cost, bytes: int, nodes: int, depth: nat) {
    c.sound && c.bytes <= bytes && c.nodes <= nodes && depth + c.height <= MAX_DEPTH
  }

  /** A part that does not fit keeps the whole from fitting. */
  predicate Within(c: Cost, d: Cost) {
    c.bytes <= d.bytes && c.nodes <= d.nodes && c.height <= d.height && (d.sound ==> c.sound)
  }

  lemma {:induction false} PrefixWithin(items: seq<Json>, n: nat)
    requires n <= |items|
    ensures Within(CostOfItems(items[..n]), CostOfItems(items))
  {
    if n == |items| {
      assert items[..n] == items;
    } else {
      var before := items[..|items| - 1];
      PrefixWithin(before, n);
      assert before[..n] == items[..n];
    }
  }

  lemma {:induction false} PropPrefixWithin(props: seq<Prop>, n: nat)
    requires n <= |props|
    ensures Within(CostOfProps(props[..n]), CostOfProps(props))
  {
    if n == |props| {
      assert props[..n] == props;
    } else {
      var before := props[..|props| - 1];
      PropPrefixWithin(before, n);
      assert before[..n] == props[..n];
    }
  }

  /** The suffix of a string still to be charged. */
  lemma TextStep(s: Text, i: nat)
    requires i < |s|
    ensures TextCost(s[i..]) == PointCost(FirstPoint(s[i..])) + TextCost(s[i + FirstWidth(s[i..])..])
  {
    assert s[i..][FirstWidth(s[i..])..] == s[i + FirstWidth(s[i..])..];
  }

  class Budget {
    var remainingBytes: int
    var remainingNodes: int

    constructor (bytes: nat, nodes: nat)
      ensures remainingBytes == bytes && remainingNodes == nodes
    {
      remainingBytes := bytes;
      remainingNodes := nodes;
    }

    /** accountJsonBytes; false stands for the exception. */
    method Account(bytes: nat) returns (ok: bool)
      modifies this`remainingBytes
      ensures remainingBytes == old(remainingBytes) - bytes
      ensures ok <==> bytes <= old(remainingBytes)
    {
      remainingBytes := remainingBytes - bytes;
      ok := remainingBytes >= 0;
    }

    method AccountText(s: Text) returns (ok: bool)
      modifies this`remainingBytes
      ensures ok <==> 2 + TextCost(s) <= old(remainingBytes)
      ensures ok ==> remainingBytes == old(remainingBytes) - 2 - TextCost(s)
    {
      ok := Account(2);
      var i := 0;
      while ok && i < |s|
        invariant i <= |s|
        invariant ok ==> remainingBytes == old(remainingBytes) - 2 - (TextCost(s) - TextCost(s[i..]))
        invariant ok ==> remainingBytes >= 0
        invariant !ok ==> 2 + TextCost(s) > old(remainingBytes)
        decreases |s| - i
      {
        var point := FirstPoint(s[i..]);
        TextStep(s, i);
        i := i + FirstWidth(s[i..]);
        if HasShortEscape(point) {
          ok := Account(2);
        } else if point <= 0x1F || (0xD800 <= point && point <= 0xDFFF) {
          ok := Account(6);
        } else if point <= 0x7F {
          ok := Account(1);
        } else if point <= 0x7FF {
          ok := Account(2);
        } else if point <= 0xFFFF {
          ok := Account(3);
        } else {
          ok := Account(4);
        }
      }
    }

    /** visitJsonValue. It passes exactly the values that fit, and charges exactly their cost. */
    method Visit(v: Json, depth: nat) returns (ok: bool)
      requires remainingBytes >= 0 && remainingNodes >= 0
      modifies this
      ensures ok <==> Fits(CostOf(v), old(remainingBytes), old(remainingNodes), depth)
      ensures ok ==> remainingBytes == old(remainingBytes) - CostOf(v).bytes
      ensures ok ==> remainingNodes == old(remainingNodes) - CostOf(v).nodes
      decreases v
    {
      remainingNodes := remainingNodes - 1;
      if remainingNodes < 0 || depth > MAX_DEPTH {
        return false;
      }
      match v
      case Null => ok := Account(4);
      case Bool(b) => ok := Account(if b then 4 else 5);
      case Num(text) => ok := Account(|text|);
      case Str(units) => ok := AccountText(units);
      case Arr(items) => ok := VisitArray(items, depth);
      case Obj(props) => ok := VisitRecord(props, depth);
      case _ => ok := false;
    }

    method VisitArray(items: seq<Json>, depth: nat) returns (ok: bool)
      requires remainingBytes >= 0 && remainingNodes >= 0 && depth <= MAX_DEPTH
      modifies this
      ensures ok <==> |items| <= MAX_NODES
                      && Fits(CostOfItems(items), old(remainingBytes) - 2, old(remainingNodes), depth)
      ensures ok ==> remainingBytes == old(remainingBytes) - 2 - CostOfItems(items).bytes
      ensures ok ==> remainingNodes == old(remainingNodes) - CostOfItems(items).nodes
      decreases items
    {
      if |items| > MAX_NODES {
        return false;
      }
      ok := Account(2);
      var index := 0;
      while ok && index < |items|
        invariant index <= |items|
        invariant ok ==> remainingBytes >= 0 && remainingNodes >= 0
        invariant ok <==> Fits(CostOfItems(items[..index]), old(remainingBytes) - 2, old(remainingNodes), depth)
        invariant ok ==> remainingBytes == old(remainingBytes) - 2 - CostOfItems(items[..index]).bytes
        invariant ok ==> remainingNodes == old(remainingNodes) - CostOfItems(items[..index]).nodes
      {
        assert items[..index + 1][..index] == items[..index];
        if index > 0 {
          ok := Account(1);
        }
        if ok {
          if items[index].Hole? {
            ok := false;
          } else if items[index].Unset? {
            ok := Account(4);
          } else {
            ok := Visit(items[index], depth + 1);
          }
        }
        index := index + 1;
      }
      PrefixWithin(items, index);
      assert index == |items| ==> items[..index] == items;
    }

    method VisitRecord(props: seq<Prop>, depth: nat) returns (ok: bool)
      requires remainingBytes >= 0 && remainingNodes >= 0 && depth <= MAX_DEPTH
      modifies this
      ensures ok <==> Fits(CostOfProps(props), old(remainingBytes) - 2, old(remainingNodes), depth)
      ensures ok ==> remainingBytes == old(remainingBytes) - 2 - CostOfProps(props).bytes
      ensures ok ==> remainingNodes == old(remainingNodes) - CostOfProps(props).nodes
      decreases props
    {
      ok := Account(2);
      var index, propertyCount := 0, 0;
      while ok && index < |props|
        invariant index <= |props| && propertyCount == CountIncluded(props[..index])
        invariant ok ==> remainingBytes >= 0 && remainingNodes >= 0
        invariant ok <==> Fits(CostOfProps(props[..index]), old(remainingBytes) - 2, old(remainingNodes), depth)
        invariant ok ==> remainingBytes == old(remainingBytes) - 2 - CostOfProps(props[..index]).bytes
        invariant ok ==> remainingNodes == old(remainingNodes) - CostOfProps(props[..index]).nodes
      {
        assert props[..index + 1][..index] == props[..index];
        var p := props[index];
        if p.enumerable && p.value.Hole? {
          ok := false;
          propertyCount := propertyCount + 1;
        } else if Included(p) {
          ok := VisitProp(p, propertyCount, depth);
          propertyCount := propertyCount + 1;
        }
        index := index + 1;
      }
      PropPrefixWithin(props, index);
      assert index == |props| ==> props[..index] == props;
    }

    method VisitProp(p: Prop, propertyCount: nat, depth: nat) returns (ok: bool)
      requires remainingBytes >= 0 && remainingNodes >= 0 && depth <= MAX_DEPTH
      modifies this
      ensures var extra := (if propertyCount > 0 then 1 else 0) + 2 + TextCost(p.key) + 1;
              && (ok <==> Fits(CostOf(p.value), old(remainingBytes) - extra, old(remainingNodes), depth + 1))
              && (ok ==> remainingBytes == old(remainingBytes) - extra - CostOf(p.value).bytes)
              && (ok ==> remainingNodes == old(remainingNodes) - CostOf(p.value).nodes)
      decreases p
    {
      ok := true;
      if propertyCount > 0 {
        ok := Account(1);
      }
      if ok {
        ok := AccountText(p.key);
      }
      if ok {
        ok := Account(1);
      }
      if ok {
        ok := Visit(p.value, depth + 1);
      }
    }
  }

  /** A value that may be encrypted: JSON can hold it and its printed form is within all limits. */
  predicate Encryptable(v: Json) {
    var c := CostOf(v);
    c.sound && c.nodes <= MAX_NODES && c.height <= MAX_DEPTH && |Utf8(Print(v))| <= MAX_PLAINTEXT_BYTES
  }
}
