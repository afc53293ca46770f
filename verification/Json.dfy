/** JSON values, their canonical text, and a reference parser after RFC 8259 (without insignificant space). */
module Json {
  import opened Prelude
  import opened Utf8

  datatype Field = Field(key: Text, value: Json)

  /** A number is the numeral that `JSON.stringify` writes for it; `Wild` stands for numbers the codec refuses, those
      that are not finite or beyond the safe range. Objects are their fields in own-key order. */
  datatype Json =
    | Null
    | Bool(b: bool)
    | NegativeZero
    | Num(numeral: Text)
    | Wild
    | Str(s: Text)
    | Arr(items: seq<Json>)
    | Obj(fields: seq<Field>)

  const QUOTE: Unit := 0x22
  const BACKSLASH: Unit := 0x5C
  const COMMA: Unit := 0x2C
  const COLON: Unit := 0x3A
  const OPEN_ARRAY: Unit := 0x5B
  const CLOSE_ARRAY: Unit := 0x5D
  const OPEN_OBJECT: Unit := 0x7B
  const CLOSE_OBJECT: Unit := 0x7D
  const ZERO: Text := [0x30]
  const NULL: Text := [0x6E, 0x75, 0x6C, 0x6C]
  const TRUE: Text := [0x74, 0x72, 0x75, 0x65]
  const FALSE: Text := [0x66, 0x61, 0x6C, 0x73, 0x65]

  const MINUS_ZERO: Text := [0x2D, 0x30]

  predicate Digit(u: Unit) { 0x30 <= u <= 0x39 }

  /** The code units that occur in numbers. */
  predicate NumeralUnit(u: Unit) { Digit(u) || u == 0x2B || u == 0x2D || u == 0x2E || u == 0x65 || u == 0x45 }

  /** The length of the leading digits. */
  function DigitRun(t: Text): (n: nat)
    ensures n <= |t| && forall i :: 0 <= i < n ==> Digit(t[i])
  {
    if t == [] || !Digit(t[0]) then 0 else 1 + DigitRun(t[1..])
  }

  /** The number grammar of section 6 of RFC 8259. */
  predicate IsNumber(t: Text) {
    var unsigned := if t != [] && t[0] == 0x2D then t[1..] else t;
    var n := DigitRun(unsigned);
    n > 0 && (unsigned[0] == 0x30 ==> n == 1) && IsFraction(unsigned[n..])
  }

  predicate IsFraction(t: Text) {
    if t != [] && t[0] == 0x2E then DigitRun(t[1..]) > 0 && IsExponent(t[1 + DigitRun(t[1..])..]) else IsExponent(t)
  }

  predicate IsExponent(t: Text) {
    || t == []
    || ((t[0] == 0x65 || t[0] == 0x45)
        && var digits := if |t| > 1 && (t[1] == 0x2B || t[1] == 0x2D) then t[2..] else t[1..];
           0 < |digits| == DigitRun(digits))
  }

  /** The text of a number other than the negative zero. */
  predicate ValidNumeral(t: Text) {
    t != [] && (forall i :: 0 <= i < |t| ==> NumeralUnit(t[i])) && IsNumber(t) && t != MINUS_ZERO
  }

  /** What `JSON.parse` can produce and the codec accepts, apart from the ceilings. */
  predicate Valid(v: Json)
    decreases v
  {
    match v
    case Num(numeral) => ValidNumeral(numeral)
    case Wild => false
    case Arr(items) => forall i :: 0 <= i < |items| ==> Valid(items[i])
    case Obj(fields) => forall i :: 0 <= i < |fields| ==> Valid(fields[i].value)
    case _ => true
  }

  // ---------------------------------------------------------------- canonical text

  function HexDigit(n: int): Unit
    requires 0 <= n < 16
  {
    if n < 10 then 0x30 + n else 0x61 + n - 10
  }

  function UnicodeEscape(u: Unit): (r: Text)
    ensures |r| == 6
  {
    [BACKSLASH, 0x75, HexDigit(u / 0x1000), HexDigit(u / 0x100 % 16), HexDigit(u / 0x10 % 16), HexDigit(u % 16)]
  }

  function ShortEscape(u: Unit): Option<Unit> {
    if u == 0x08 then Some(0x62)
    else if u == 0x09 then Some(0x74)
    else if u == 0x0A then Some(0x6E)
    else if u == 0x0C then Some(0x66)
    else if u == 0x0D then Some(0x72)
    else None
  }

  predicate NeedsEscape(u: Unit) { u == QUOTE || u == BACKSLASH || u <= 0x1F || IsSurrogate(u) }

  /** One code unit that is not half of a pair. */
  function EscapeUnit(u: Unit): (r: Text)
    ensures 1 <= |r| <= 6
  {
    if u == QUOTE || u == BACKSLASH then [BACKSLASH, u]
    else if u <= 0x1F then (if ShortEscape(u).Some? then [BACKSLASH, ShortEscape(u).value] else UnicodeEscape(u))
    else if IsSurrogate(u) then UnicodeEscape(u)
    else [u]
  }

  function Escape(s: Text): Text {
    if s == [] then []
    else if PairAt(s, 0) then s[..2] + Escape(s[2..])
    else EscapeUnit(s[0]) + Escape(s[1..])
  }

  function StringText(s: Text): Text { [QUOTE] + Escape(s) + [QUOTE] }

  function JsonText(v: Json): Text
    decreases v
  {
    match v
    case Null => NULL
    case Bool(b) => if b then TRUE else FALSE
    case NegativeZero => ZERO
    case Num(numeral) => numeral
    case Wild => []
    case Str(s) => StringText(s)
    case Arr(items) => [OPEN_ARRAY] + ItemsText(items) + [CLOSE_ARRAY]
    case Obj(fields) => [OPEN_OBJECT] + FieldsText(fields) + [CLOSE_OBJECT]
  }

  function ItemsText(items: seq<Json>): Text
    decreases items
  {
    if items == [] then []
    else if |items| == 1 then JsonText(items[0])
    else JsonText(items[0]) + [COMMA] + ItemsText(items[1..])
  }

  function FieldText(f: Field): Text
    decreases f
  {
    StringText(f.key) + [COLON] + JsonText(f.value)
  }

  function FieldsText(fields: seq<Field>): Text
    decreases fields
  {
    if fields == [] then []
    else if |fields| == 1 then FieldText(fields[0])
    else FieldText(fields[0]) + [COMMA] + FieldsText(fields[1..])
  }

  /** Canonical text does not tell negative zero from zero. */
  function Normalized(v: Json): Json
    decreases v
  {
    match v
    case NegativeZero => Num(ZERO)
    case Arr(items) => Arr(seq(|items|, i requires 0 <= i < |items| => Normalized(items[i])))
    case Obj(fields) =>
      Obj(seq(|fields|, i requires 0 <= i < |fields| => Field(fields[i].key, Normalized(fields[i].value))))
    case _ => v
  }

  function NormalizedItems(items: seq<Json>): (r: seq<Json>)
    ensures |r| == |items|
  {
    seq(|items|, i requires 0 <= i < |items| => Normalized(items[i]))
  }

  function NormalizedFields(fields: seq<Field>): (r: seq<Field>)
    ensures |r| == |fields|
  {
    seq(|fields|, i requires 0 <= i < |fields| => Field(fields[i].key, Normalized(fields[i].value)))
  }

  // ---------------------------------------------------------------- the reference parser

  function HexValue(u: Unit): Option<int> {
    if 0x30 <= u <= 0x39 then Some(u - 0x30)
    else if 0x61 <= u <= 0x66 then Some(u - 0x61 + 10)
    else if 0x41 <= u <= 0x46 then Some(u - 0x41 + 10)
    else None
  }

  function Hex4(t: Text): (r: Option<Unit>)
    requires |t| >= 4
  {
    var a, b, c, d := HexValue(t[0]), HexValue(t[1]), HexValue(t[2]), HexValue(t[3]);
    if a.Some? && b.Some? && c.Some? && d.Some? && 0 <= a.value < 16 && 0 <= b.value < 16 && 0 <= c.value < 16 &&
      0 <= d.value < 16
    then Some(a.value * 0x1000 + b.value * 0x100 + c.value * 0x10 + d.value)
    else None
  }

  function Unescaped(u: Unit): Option<Unit> {
    if u == QUOTE || u == BACKSLASH || u == 0x2F then Some(u)
    else if u == 0x62 then Some(0x08)
    else if u == 0x74 then Some(0x09)
    else if u == 0x6E then Some(0x0A)
    else if u == 0x66 then Some(0x0C)
    else if u == 0x72 then Some(0x0D)
    else None
  }

  function Prepend(u: Unit, rest: Option<(Text, Text)>): Option<(Text, Text)> {
    if rest.Some? then Some(([u] + rest.value.0, rest.value.1)) else None
  }

  /** The characters of a string up to its closing quote, and what follows it. */
  function ParseChars(t: Text): (r: Option<(Text, Text)>)
    ensures r.Some? ==> |r.value.1| < |t|
    decreases |t|
  {
    if t == [] || t[0] <= 0x1F then None
    else if t[0] == QUOTE then Some(([], t[1..]))
    else if t[0] != BACKSLASH then Prepend(t[0], ParseChars(t[1..]))
    else if |t| >= 2 && Unescaped(t[1]).Some? then Prepend(Unescaped(t[1]).value, ParseChars(t[2..]))
    else if |t| >= 6 && t[1] == 0x75 && Hex4(t[2..6]).Some? then Prepend(Hex4(t[2..6]).value, ParseChars(t[6..]))
    else None
  }

  function ParseString(t: Text): (r: Option<(Text, Text)>)
    ensures r.Some? ==> |r.value.1| < |t|
  {
    if t != [] && t[0] == QUOTE then ParseChars(t[1..]) else None
  }

  /** The leading numeral. */
  function NumeralLength(t: Text): (n: nat)
    ensures n <= |t|
  {
    if t == [] || !NumeralUnit(t[0]) then 0 else 1 + NumeralLength(t[1..])
  }

  function ParseValue(t: Text): (r: Option<(Json, Text)>)
    ensures r.Some? ==> |r.value.1| < |t|
    decreases |t|, 1
  {
    if t == [] then None
    else if NULL <= t then Some((Null, t[4..]))
    else if TRUE <= t then Some((Bool(true), t[4..]))
    else if FALSE <= t then Some((Bool(false), t[5..]))
    else if t[0] == QUOTE then
      (match ParseString(t) case None => None case Some((s, rest)) => Some((Str(s), rest)))
    else if t[0] == OPEN_ARRAY then
      if |t| >= 2 && t[1] == CLOSE_ARRAY then Some((Arr([]), t[2..]))
      else (match ParseItems(t[1..]) case None => None case Some((items, rest)) => Some((Arr(items), rest)))
    else if t[0] == OPEN_OBJECT then
      if |t| >= 2 && t[1] == CLOSE_OBJECT then Some((Obj([]), t[2..]))
      else (match ParseFields(t[1..]) case None => None case Some((fields, rest)) => Some((Obj(fields), rest)))
    else if NumeralUnit(t[0]) then ParseNumber(t)
    else None
  }

  function ParseNumber(t: Text): (r: Option<(Json, Text)>)
    requires t != [] && NumeralUnit(t[0])
    ensures r.Some? ==> |r.value.1| < |t|
  {
    var n := NumeralLength(t);
    if !IsNumber(t[..n]) then None else Some((if t[..n] == MINUS_ZERO then NegativeZero else Num(t[..n]), t[n..]))
  }

  function ParseItems(t: Text): (r: Option<(seq<Json>, Text)>)
    ensures r.Some? ==> |r.value.1| < |t|
    decreases |t|, 2
  {
    match ParseValue(t)
    case None => None
    case Some((v, rest)) =>
      if rest == [] then None
      else if rest[0] == CLOSE_ARRAY then Some(([v], rest[1..]))
      else if rest[0] != COMMA then None
      else
        match ParseItems(rest[1..])
        case None => None
        case Some((more, after)) => Some(([v] + more, after))
  }

  function ParseFields(t: Text): (r: Option<(seq<Field>, Text)>)
    ensures r.Some? ==> |r.value.1| < |t|
    decreases |t|, 2
  {
    match ParseString(t)
    case None => None
    case Some((key, afterKey)) =>
      if afterKey == [] || afterKey[0] != COLON then None
      else
        match ParseValue(afterKey[1..])
        case None => None
        case Some((v, rest)) =>
          if rest == [] then None
          else if rest[0] == CLOSE_OBJECT then Some(([Field(key, v)], rest[1..]))
          else if rest[0] != COMMA then None
          else
            match ParseFields(rest[1..])
            case None => None
            case Some((more, after)) => Some(([Field(key, v)] + more, after))
  }

  function Parse(t: Text): Option<Json> {
    match ParseValue(t) case Some((v, rest)) => (if rest == [] then Some(v) else None) case None => None
  }

  // ---------------------------------------------------------------- parsing canonical text

  lemma Nibbles(u: int)
    ensures u == u / 0x1000 * 0x1000 + u / 0x100 % 16 * 0x100 + u / 0x10 % 16 * 0x10 + u % 16
  {
  }

  lemma HexRoundTrip(u: Unit)
    ensures Hex4(UnicodeEscape(u)[2..6]) == Some(u)
  {
    hide HexDigit, HexValue;
    var t := UnicodeEscape(u)[2..6];
    assert t[0] == HexDigit(u / 0x1000) && t[1] == HexDigit(u / 0x100 % 16) && t[2] == HexDigit(u / 0x10 % 16) &&
      t[3] == HexDigit(u % 16);
    HexDigits(u / 0x1000);
    HexDigits(u / 0x100 % 16);
    HexDigits(u / 0x10 % 16);
    HexDigits(u % 16);
    Nibbles(u);
  }

  lemma HexDigits(n: int)
    requires 0 <= n < 16
    ensures HexValue(HexDigit(n)) == Some(n)
  {
  }

  lemma ParseEscaped(u: Unit, rest: Text)
    ensures ParseChars(EscapeUnit(u) + rest) == Prepend(u, ParseChars(rest))
  {
    hide ParseChars, UnicodeEscape, Hex4;
    var e := EscapeUnit(u);
    var t := e + rest;
    assert t[|e|..] == rest;
    assert forall i :: 0 <= i < |e| ==> t[i] == e[i];
    UnicodeParts(u);
    if e == UnicodeEscape(u) {
      HexRoundTrip(u);
      assert t[2..6] == e[2..6];
      ParseUnicode(t);
    } else if |e| == 2 {
      ParseShort(t);
    } else {
      ParseUnescaped(t);
    }
  }

  lemma UnicodeParts(u: Unit)
    ensures UnicodeEscape(u)[0] == BACKSLASH && UnicodeEscape(u)[1] == 0x75 && |UnicodeEscape(u)| == 6
  {
  }

  lemma ParseUnescaped(t: Text)
    requires t != [] && t[0] > 0x1F && t[0] != QUOTE && t[0] != BACKSLASH
    ensures ParseChars(t) == Prepend(t[0], ParseChars(t[1..]))
  {
  }

  lemma ParseShort(t: Text)
    requires |t| >= 2 && t[0] == BACKSLASH && Unescaped(t[1]).Some?
    ensures ParseChars(t) == Prepend(Unescaped(t[1]).value, ParseChars(t[2..]))
  {
  }

  lemma ParseUnicode(t: Text)
    requires |t| >= 6 && t[0] == BACKSLASH && t[1] == 0x75 && Hex4(t[2..6]).Some?
    ensures ParseChars(t) == Prepend(Hex4(t[2..6]).value, ParseChars(t[6..]))
  {
    assert Unescaped(0x75) == None;
  }

  lemma ParsePlain(u: Unit, rest: Text)
    requires u > 0x1F && u != QUOTE && u != BACKSLASH
    ensures ParseChars([u] + rest) == Prepend(u, ParseChars(rest))
  {
    assert ([u] + rest)[1..] == rest;
  }

  lemma {:induction false} ParseEscapedText(s: Text, rest: Text)
    ensures ParseChars(Escape(s) + [QUOTE] + rest) == Some((s, rest))
  {
    hide ParseChars, EscapeUnit;
    var t := Escape(s) + [QUOTE] + rest;
    if s == [] {
      assert t == [QUOTE] + rest;
      ParseClose(rest);
    } else if PairAt(s, 0) {
      var after := Escape(s[2..]) + [QUOTE] + rest;
      ParseEscapedText(s[2..], rest);
      assert t == [s[0]] + ([s[1]] + after);
      ParsePlain(s[0], [s[1]] + after);
      ParsePlain(s[1], after);
      assert s == [s[0]] + ([s[1]] + s[2..]);
    } else {
      var after := Escape(s[1..]) + [QUOTE] + rest;
      ParseEscapedText(s[1..], rest);
      ParseEscaped(s[0], after);
      assert t == EscapeUnit(s[0]) + after;
      assert s == [s[0]] + s[1..];
    }
  }

  lemma ParseClose(rest: Text)
    ensures ParseChars([QUOTE] + rest) == Some(([], rest))
  {
    assert ([QUOTE] + rest)[1..] == rest;
  }

  lemma ParseStringText(s: Text, rest: Text)
    ensures ParseString(StringText(s) + rest) == Some((s, rest))
  {
    ParseEscapedText(s, rest);
    assert (StringText(s) + rest)[1..] == Escape(s) + [QUOTE] + rest;
  }

  lemma {:induction false} NumeralPrefix(t: Text, rest: Text)
    requires forall i :: 0 <= i < |t| ==> NumeralUnit(t[i])
    requires rest == [] || !NumeralUnit(rest[0])
    ensures NumeralLength(t + rest) == |t|
  {
    if t == [] { assert t + rest == rest; } else {
      NumeralPrefix(t[1..], rest);
      assert (t + rest)[1..] == t[1..] + rest;
    }
  }

  predicate Ends(rest: Text) { rest == [] || !NumeralUnit(rest[0]) }

  lemma ParseScalar(v: Json, rest: Text)
    requires Valid(v) && !v.Arr? && !v.Obj? && Ends(rest)
    ensures ParseValue(JsonText(v) + rest) == Some((Normalized(v), rest))
  {
    var t := JsonText(v) + rest;
    match v
    case Null => assert NULL <= t && t[4..] == rest;
    case Bool(b) =>
      if b {
        assert TRUE <= t && t[4..] == rest && t[0] == 0x74;
      } else {
        assert FALSE <= t && t[5..] == rest && t[0] == 0x66;
      }
    case Str(s) =>
      ParseStringText(s, rest);
      assert t[0] == QUOTE;
    case NegativeZero => ParseNumeral(ZERO, rest);
    case Num(numeral) => ParseNumeral(numeral, rest);
    case Wild =>
    case Arr(_) =>
    case Obj(_) =>
  }

  lemma ParseNumeral(n: Text, rest: Text)
    requires ValidNumeral(n) && Ends(rest)
    ensures ParseValue(n + rest) == Some((Num(n), rest))
  {
    var t := n + rest;
    NumeralPrefix(n, rest);
    assert t[0] == n[0] && NumeralUnit(n[0]) && t[..|n|] == n && t[|n|..] == rest;
  }

  /** The first code unit tells containers from the rest. */
  lemma ValueStart(v: Json)
    requires Valid(v)
    ensures JsonText(v) != [] && JsonText(v)[0] != CLOSE_ARRAY && JsonText(v)[0] != CLOSE_OBJECT
  {
  }

  /** The array and object cases of the parser, apart from their first code unit. */
  lemma ParseArrayText(body: Text, rest: Text, items: seq<Json>)
    requires body != [] && body[0] != CLOSE_ARRAY && ParseItems(body) == Some((items, rest))
    ensures ParseValue([OPEN_ARRAY] + body) == Some((Arr(items), rest))
  {
    var t := [OPEN_ARRAY] + body;
    assert t[0] == OPEN_ARRAY && t[1..] == body && t[1] == body[0];
  }

  lemma ParseObjectText(body: Text, rest: Text, fields: seq<Field>)
    requires body != [] && body[0] != CLOSE_OBJECT && ParseFields(body) == Some((fields, rest))
    ensures ParseValue([OPEN_OBJECT] + body) == Some((Obj(fields), rest))
  {
    hide ParseFields, ParseItems, ParseString, NumeralLength, NumeralUnit;
    var t := [OPEN_OBJECT] + body;
    assert t[0] == OPEN_OBJECT && t[1..] == body && t[1] == body[0];
  }

  lemma ParseEmpty(rest: Text)
    ensures ParseValue(JsonText(Arr([])) + rest) == Some((Arr([]), rest))
    ensures ParseValue(JsonText(Obj([])) + rest) == Some((Obj([]), rest))
  {
    var a := [OPEN_ARRAY, CLOSE_ARRAY] + rest;
    var o := [OPEN_OBJECT, CLOSE_OBJECT] + rest;
    assert JsonText(Arr([])) == [OPEN_ARRAY, CLOSE_ARRAY] && JsonText(Obj([])) == [OPEN_OBJECT, CLOSE_OBJECT];
    assert a[0] == OPEN_ARRAY && a[1] == CLOSE_ARRAY && a[2..] == rest;
    assert o[0] == OPEN_OBJECT && o[1] == CLOSE_OBJECT && o[2..] == rest;
  }

  lemma {:induction false} ParseText(v: Json, rest: Text)
    requires Valid(v) && Ends(rest)
    ensures ParseValue(JsonText(v) + rest) == Some((Normalized(v), rest))
    decreases v
  {
    hide ParseValue, ParseItems, ParseFields, ItemsText, FieldsText;
    match v
    case Arr(items) =>
      if items == [] {
        assert v == Arr([]) && Normalized(v) == Arr([]);
        ParseEmpty(rest);
      } else {
        var body := ItemsText(items) + [CLOSE_ARRAY] + rest;
        ParseItemsText(items, rest);
        ItemsStart(items);
        ParseArrayText(body, rest, NormalizedItems(items));
        assert JsonText(v) + rest == [OPEN_ARRAY] + body;
      }
    case Obj(fields) =>
      if fields == [] {
        assert v == Obj([]) && Normalized(v) == Obj([]);
        ParseEmpty(rest);
      } else {
        var body := FieldsText(fields) + [CLOSE_OBJECT] + rest;
        ParseFieldsText(fields, rest);
        FieldsStart(fields);
        ParseObjectText(body, rest, NormalizedFields(fields));
        assert JsonText(v) + rest == [OPEN_OBJECT] + body;
      }
    case _ => ParseScalar(v, rest);
  }

  lemma ItemsStart(items: seq<Json>)
    requires items != [] && Valid(items[0])
    ensures ItemsText(items) != [] && ItemsText(items)[0] != CLOSE_ARRAY
  {
    hide JsonText;
    ValueStart(items[0]);
  }

  lemma FieldsStart(fields: seq<Field>)
    requires fields != []
    ensures FieldsText(fields) != [] && FieldsText(fields)[0] == QUOTE
  {
    hide JsonText;
  }

  /** One step of the item and field loops. */
  lemma ParseLastItem(t: Text, v: Json, rest: Text)
    requires ParseValue(t) == Some((v, [CLOSE_ARRAY] + rest))
    ensures ParseItems(t) == Some(([v], rest))
  {
    hide ParseValue;
    assert ([CLOSE_ARRAY] + rest)[1..] == rest;
  }

  lemma ParseNextItem(t: Text, v: Json, more: Text, items: seq<Json>, rest: Text)
    requires ParseValue(t) == Some((v, [COMMA] + more)) && ParseItems(more) == Some((items, rest))
    ensures ParseItems(t) == Some(([v] + items, rest))
  {
    hide ParseValue;
    assert ([COMMA] + more)[1..] == more;
  }

  lemma {:induction false} ParseItemsText(items: seq<Json>, rest: Text)
    requires items != [] && forall i :: 0 <= i < |items| ==> Valid(items[i])
    ensures ParseItems(ItemsText(items) + [CLOSE_ARRAY] + rest) == Some((NormalizedItems(items), rest))
    decreases items
  {
    hide ParseValue, ParseItems, JsonText, Normalized;
    var first := JsonText(items[0]);
    var t := ItemsText(items) + [CLOSE_ARRAY] + rest;
    if |items| == 1 {
      ParseText(items[0], [CLOSE_ARRAY] + rest);
      assert t == first + ([CLOSE_ARRAY] + rest);
      ParseLastItem(t, Normalized(items[0]), rest);
      assert NormalizedItems(items) == [Normalized(items[0])];
    } else {
      var more := ItemsText(items[1..]) + [CLOSE_ARRAY] + rest;
      ParseText(items[0], [COMMA] + more);
      ParseItemsText(items[1..], rest);
      assert t == first + ([COMMA] + more);
      ParseNextItem(t, Normalized(items[0]), more, NormalizedItems(items[1..]), rest);
      assert NormalizedItems(items) == [Normalized(items[0])] + NormalizedItems(items[1..]);
    }
  }

  lemma ParseLastField(t: Text, key: Text, text: Text, v: Json, rest: Text)
    requires ParseString(t) == Some((key, [COLON] + text)) && ParseValue(text) == Some((v, [CLOSE_OBJECT] + rest))
    ensures ParseFields(t) == Some(([Field(key, v)], rest))
  {
    hide ParseValue, ParseString;
    assert ([COLON] + text)[1..] == text && ([CLOSE_OBJECT] + rest)[1..] == rest;
  }

  lemma ParseNextField(t: Text, key: Text, text: Text, v: Json, more: Text, fields: seq<Field>, rest: Text)
    requires ParseString(t) == Some((key, [COLON] + text)) && ParseValue(text) == Some((v, [COMMA] + more))
    requires ParseFields(more) == Some((fields, rest))
    ensures ParseFields(t) == Some(([Field(key, v)] + fields, rest))
  {
    hide ParseValue, ParseString;
    assert ([COLON] + text)[1..] == text && ([COMMA] + more)[1..] == more;
  }

  lemma FieldKeyText(f: Field, rest: Text)
    ensures ParseString(FieldText(f) + rest) == Some((f.key, [COLON] + (JsonText(f.value) + rest)))
  {
    hide JsonText, ParseString, StringText;
    ParseStringText(f.key, [COLON] + (JsonText(f.value) + rest));
    assert FieldText(f) + rest == StringText(f.key) + ([COLON] + (JsonText(f.value) + rest));
  }

  lemma {:induction false} ParseFieldsText(fields: seq<Field>, rest: Text)
    requires fields != [] && forall i :: 0 <= i < |fields| ==> Valid(fields[i].value)
    ensures ParseFields(FieldsText(fields) + [CLOSE_OBJECT] + rest) == Some((NormalizedFields(fields), rest))
    decreases fields
  {
    hide ParseValue, ParseFields, ParseString, JsonText, Normalized, FieldText;
    var f := fields[0];
    var t := FieldsText(fields) + [CLOSE_OBJECT] + rest;
    if |fields| == 1 {
      ParseText(f.value, [CLOSE_OBJECT] + rest);
      FieldKeyText(f, [CLOSE_OBJECT] + rest);
      assert t == FieldText(f) + ([CLOSE_OBJECT] + rest);
      ParseLastField(t, f.key, JsonText(f.value) + ([CLOSE_OBJECT] + rest), Normalized(f.value), rest);
      assert NormalizedFields(fields) == [Field(f.key, Normalized(f.value))];
    } else {
      var more := FieldsText(fields[1..]) + [CLOSE_OBJECT] + rest;
      ParseText(f.value, [COMMA] + more);
      FieldKeyText(f, [COMMA] + more);
      ParseFieldsText(fields[1..], rest);
      assert t == FieldText(f) + ([COMMA] + more);
      ParseNextField(t, f.key, JsonText(f.value) + ([COMMA] + more), Normalized(f.value), more,
        NormalizedFields(fields[1..]), rest);
      assert NormalizedFields(fields) == [Field(f.key, Normalized(f.value))] + NormalizedFields(fields[1..]);
    }
  }

  /** Parsing canonical text gives the value back, up to the sign of zero. */
  lemma ParseCanonical(v: Json)
    requires Valid(v)
    ensures Parse(JsonText(v)) == Some(Normalized(v))
  {
    ParseText(v, []);
    assert JsonText(v) + [] == JsonText(v);
  }

  // ---------------------------------------------------------------- canonical text is well-formed

  lemma WellFormedConcat(a: Text, b: Text)
    requires WellFormed(a) && WellFormed(b)
    ensures WellFormed(a + b)
  {
    var s := a + b;
    forall i | 0 <= i < |s| && IsSurrogate(s[i]) ensures Paired(s, i) {
      if i < |a| {
        assert s[i] == a[i] && IsSurrogate(a[i]) && Paired(a, i);
      } else {
        var j := i - |a|;
        assert s[i] == b[j] && IsSurrogate(b[j]) && Paired(b, j);
      }
    }
  }

  lemma {:induction false} EscapeWellFormed(s: Text)
    ensures WellFormed(Escape(s))
  {
    if s == [] {
    } else if PairAt(s, 0) {
      EscapeWellFormed(s[2..]);
      PairWellFormed(s[..2]);
      WellFormedConcat(s[..2], Escape(s[2..]));
    } else {
      EscapeWellFormed(s[1..]);
      WellFormedConcat(EscapeUnit(s[0]), Escape(s[1..]));
    }
  }

  lemma PairWellFormed(p: Text)
    requires |p| == 2 && PairAt(p, 0)
    ensures WellFormed(p)
  {
    assert Paired(p, 0) && Paired(p, 1);
  }

  lemma StringTextWellFormed(s: Text)
    ensures WellFormed(StringText(s))
  {
    EscapeWellFormed(s);
    WellFormedConcat([QUOTE], Escape(s));
    WellFormedConcat([QUOTE] + Escape(s), [QUOTE]);
  }

  lemma {:induction false} JsonTextWellFormed(v: Json)
    requires Valid(v)
    ensures WellFormed(JsonText(v))
    decreases v
  {
    match v
    case Str(s) => StringTextWellFormed(s);
    case Arr(items) =>
      ItemsTextWellFormed(items);
      WellFormedConcat([OPEN_ARRAY], ItemsText(items));
      WellFormedConcat([OPEN_ARRAY] + ItemsText(items), [CLOSE_ARRAY]);
    case Obj(fields) =>
      FieldsTextWellFormed(fields);
      WellFormedConcat([OPEN_OBJECT], FieldsText(fields));
      WellFormedConcat([OPEN_OBJECT] + FieldsText(fields), [CLOSE_OBJECT]);
    case _ =>
  }

  lemma {:induction false} ItemsTextWellFormed(items: seq<Json>)
    requires forall i :: 0 <= i < |items| ==> Valid(items[i])
    ensures WellFormed(ItemsText(items))
    decreases items
  {
    hide JsonText, WellFormed;
    if |items| == 0 {
      assert WellFormed([]) by { NothingWellFormed(); }
    } else {
      JsonTextWellFormed(items[0]);
      if |items| > 1 {
        ItemsTextWellFormed(items[1..]);
        UnitWellFormed(COMMA);
        WellFormedConcat(JsonText(items[0]), [COMMA]);
        WellFormedConcat(JsonText(items[0]) + [COMMA], ItemsText(items[1..]));
      }
    }
  }

  lemma NothingWellFormed()
    ensures WellFormed([])
  {
  }

  lemma UnitWellFormed(u: Unit)
    requires !IsSurrogate(u)
    ensures WellFormed([u])
  {
  }

  lemma {:induction false} FieldTextWellFormed(f: Field)
    requires Valid(f.value)
    ensures WellFormed(FieldText(f))
    decreases f
  {
    hide JsonText, WellFormed, StringText;
    StringTextWellFormed(f.key);
    JsonTextWellFormed(f.value);
    UnitWellFormed(COLON);
    WellFormedConcat(StringText(f.key), [COLON]);
    WellFormedConcat(StringText(f.key) + [COLON], JsonText(f.value));
  }

  lemma {:induction false} FieldsTextWellFormed(fields: seq<Field>)
    requires forall i :: 0 <= i < |fields| ==> Valid(fields[i].value)
    ensures WellFormed(FieldsText(fields))
    decreases fields
  {
    hide FieldText, WellFormed;
    if |fields| == 0 {
      assert WellFormed([]) by { NothingWellFormed(); }
    } else {
      FieldTextWellFormed(fields[0]);
      if |fields| > 1 {
        FieldsTextWellFormed(fields[1..]);
        UnitWellFormed(COMMA);
        WellFormedConcat(FieldText(fields[0]), [COMMA]);
        WellFormedConcat(FieldText(fields[0]) + [COMMA], FieldsText(fields[1..]));
      }
    }
  }

  /** The bytes of canonical text decode and parse to the value, up to the sign of zero. */
  lemma ReadBack(v: Json)
    requires Valid(v)
    ensures Decode(Encode(JsonText(v))) == Some(JsonText(v)) && Parse(JsonText(v)) == Some(Normalized(v))
  {
    JsonTextWellFormed(v);
    RoundTripIff(JsonText(v));
    ParseCanonical(v);
  }
}
