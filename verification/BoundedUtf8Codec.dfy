/** The streaming encoder: tokens of bounded size, packed into bounded chunks. Every loop is proved against
    the encoding of the whole text. */
module BoundedUtf8Codec {
  import opened Prelude
  import opened Utf8
  import opened Json

  const MAX_CHUNK_BYTES: nat := 65536
  const RAW_TOKEN_CODE_UNITS: nat := 16384
  const MAX_JSON_DEPTH: nat := 32
  const MAX_JSON_ITEMS: nat := 50000
  const MAX_JSON_CONTAINER_ITEMS: nat := 10000
  const MAX_JSON_STRING_BYTES: nat := 50331648

  // ---------------------------------------------------------------- tokens

  function Joined<T>(parts: seq<seq<T>>): seq<T> {
    if parts == [] then [] else Joined(parts[..|parts| - 1]) + parts[|parts| - 1]
  }

  lemma JoinedSnoc<T>(parts: seq<seq<T>>, part: seq<T>)
    ensures Joined(parts + [part]) == Joined(parts) + part
  {
    assert (parts + [part])[..|parts|] == parts;
  }

  lemma {:induction false} JoinedConcat<T>(a: seq<seq<T>>, b: seq<seq<T>>)
    ensures Joined(a + b) == Joined(a) + Joined(b)
  {
    if b == [] {
      assert a + b == a;
    } else {
      JoinedConcat(a, b[..|b| - 1]);
      assert (a + b)[..|a + b| - 1] == a + b[..|b| - 1];
    }
  }

  function Encoded(tokens: seq<Text>): (r: seq<seq<Byte>>)
    ensures |r| == |tokens|
  {
    seq(|tokens|, i requires 0 <= i < |tokens| => Encode(tokens[i]))
  }

  /** A token that fits a chunk by itself. */
  predicate Bounded(t: Text) { t != [] && |t| <= RAW_TOKEN_CODE_UNITS + 1 && |Encode(t)| <= MAX_CHUNK_BYTES }

  /** The tokens make up the text, each fits a chunk, and encoding them one by one encodes the text. */
  ghost predicate Tokens(tokens: seq<Text>, s: Text) {
    && (forall i :: 0 <= i < |tokens| ==> Bounded(tokens[i]))
    && Joined(tokens) == s
    && Joined(Encoded(tokens)) == Encode(s)
  }

  lemma TokensSnoc(tokens: seq<Text>, s: Text, t: Text)
    requires Tokens(tokens, s) && Bounded(t) && Separable(s, t)
    ensures Tokens(tokens + [t], s + t)
  {
    hide Encode;
    JoinedSnoc(tokens, t);
    JoinedSnoc(Encoded(tokens), Encode(t));
    EncodeConcat(s, t);
    assert Encoded(tokens + [t]) == Encoded(tokens) + [Encode(t)];
  }

  lemma TokensConcat(a: seq<Text>, s: Text, b: seq<Text>, t: Text)
    requires Tokens(a, s) && Tokens(b, t) && Separable(s, t)
    ensures Tokens(a + b, s + t)
  {
    hide Encode;
    JoinedConcat(a, b);
    JoinedConcat(Encoded(a), Encoded(b));
    EncodeConcat(s, t);
    assert Encoded(a + b) == Encoded(a) + Encoded(b);
  }

  // ---------------------------------------------------------------- code points

  /** No surrogate pair straddles the position. */
  predicate Cut(s: Text, i: nat) { !(0 < i && PairAt(s, i - 1)) }

  function CodePointBytes(s: Text, i: nat): (bytes: nat)
    requires i < |s|
    ensures 1 <= bytes <= 4
  {
    if s[i] <= 0x7F then 1 else if s[i] <= 0x7FF then 2 else if PairAt(s, i) then 4 else 3
  }

  function NextIndex(s: Text, i: nat): (next: nat)
    requires i < |s|
    ensures i < next <= |s| && next <= i + 2
  {
    if PairAt(s, i) then i + 2 else i + 1
  }

  /** Stepping over one code point: its bytes are those of its encoding, and it ends at a cut. */
  lemma CodePointStep(s: Text, start: nat, i: nat)
    requires start <= i < |s| && Cut(s, i)
    ensures var next := NextIndex(s, i);
            Cut(s, next) && |Encode(s[start..next])| == |Encode(s[start..i])| + CodePointBytes(s, i)
  {
    var next := NextIndex(s, i);
    assert s[start..next] == s[start..i] + s[i..next];
    EncodeConcat(s[start..i], s[i..next]);
    if next == i + 1 {
      assert s[i..next] == [s[i]];
      assert s[i..next][1..] == [];
    } else {
      assert s[i..next][2..] == [];
    }
  }

  // ---------------------------------------------------------------- raw text

  lemma NoTokens(s: Text)
    ensures Tokens([], s[..0]) && Encode(s[0..0]) == []
  {
  }

  method RawUtf8Tokens(s: Text) returns (tokens: seq<Text>)
    ensures Tokens(tokens, s)
  {
    hide Encode, Tokens, CodePointBytes, NextIndex;
    tokens := [];
    var start, tokenBytes, index := 0, 0, 0;
    NoTokens(s);
    while index < |s|
      invariant 0 <= start <= index <= |s| && Cut(s, start) && Cut(s, index) && (start < index || index == 0)
      invariant Tokens(tokens, s[..start])
      invariant tokenBytes == |Encode(s[start..index])| <= MAX_CHUNK_BYTES && index - start <= RAW_TOKEN_CODE_UNITS + 1
    {
      var bytes := CodePointBytes(s, index);
      if tokenBytes > 0 && (tokenBytes + bytes > MAX_CHUNK_BYTES || index - start >= RAW_TOKEN_CODE_UNITS) {
        TokensSnoc(tokens, s[..start], s[start..index]);
        assert s[..start] + s[start..index] == s[..index];
        tokens := tokens + [s[start..index]];
        start, tokenBytes := index, 0;
      }
      CodePointStep(s, start, index);
      EncodeNonEmpty(s[start..index]);
      tokenBytes := tokenBytes + bytes;
      index := NextIndex(s, index);
    }
    if start < |s| {
      assert s[start..] == s[start..index] && s[..start] + s[start..] == s;
      TokensSnoc(tokens, s[..start], s[start..]);
      tokens := tokens + [s[start..]];
    } else {
      assert s == s[..start];
    }
  }

  lemma EncodeNonEmpty(s: Text)
    ensures s != [] <==> Encode(s) != []
  {
  }

  // ---------------------------------------------------------------- strings

  /** The units that go out as they are. */
  predicate Plain(s: Text, i: nat)
    requires i < |s|
  {
    PairAt(s, i) || !NeedsEscape(s[i])
  }

  lemma {:induction false} EscapeConcat(a: Text, b: Text)
    requires Separable(a, b)
    ensures Escape(a + b) == Escape(a) + Escape(b)
  {
    if a == [] {
      assert a + b == b;
    } else if PairAt(a, 0) {
      assert (a + b)[2..] == a[2..] + b && (a + b)[..2] == a[..2];
      EscapeConcat(a[2..], b);
    } else {
      assert (a + b)[1..] == a[1..] + b;
      assert !PairAt(a + b, 0);
      EscapeConcat(a[1..], b);
    }
  }

  lemma EscapeStep(s: Text, start: nat, i: nat)
    requires start <= i < |s| && Cut(s, i)
    ensures var next := NextIndex(s, i);
            Escape(s[start..next]) == Escape(s[start..i]) + if Plain(s, i) then s[i..next] else EscapeUnit(s[i])
  {
    var next := NextIndex(s, i);
    assert s[start..next] == s[start..i] + s[i..next];
    EscapeConcat(s[start..i], s[i..next]);
    if next == i + 1 {
      assert s[i..next] == [s[i]];
      assert s[i..next][1..] == [];
    } else {
      assert s[i..next][2..] == [] && s[i..next][..2] == s[i..next];
    }
  }

  // ---------------------------------------------------------------- what the codec admits

  function Items(v: Json): (n: nat)
    ensures n >= 1
    decreases v
  {
    match v
    case Arr(items) => 1 + ItemsAll(items)
    case Obj(fields) => 1 + ItemsFields(fields)
    case _ => 1
  }

  function ItemsAll(items: seq<Json>): nat
    decreases items
  {
    if items == [] then 0 else Items(items[0]) + ItemsAll(items[1..])
  }

  function ItemsFields(fields: seq<Field>): nat
    decreases fields
  {
    if fields == [] then 0 else Items(fields[0].value) + ItemsFields(fields[1..])
  }

  /** UTF-8 bytes of all string values; keys have no ceiling of their own. */
  function StringBytes(v: Json): nat
    decreases v
  {
    match v
    case Str(s) => |Encode(s)|
    case Arr(items) => StringBytesAll(items)
    case Obj(fields) => StringBytesFields(fields)
    case _ => 0
  }

  function StringBytesAll(items: seq<Json>): nat
    decreases items
  {
    if items == [] then 0 else StringBytes(items[0]) + StringBytesAll(items[1..])
  }

  function StringBytesFields(fields: seq<Field>): nat
    decreases fields
  {
    if fields == [] then 0 else StringBytes(fields[0].value) + StringBytesFields(fields[1..])
  }

  /** Depth and width ceilings, and no number outside the data model. */
  predicate Shaped(v: Json, depth: nat)
    decreases v
  {
    && depth <= MAX_JSON_DEPTH
    && match v
       case Wild => false
       case Arr(items) =>
         |items| <= MAX_JSON_CONTAINER_ITEMS && forall i :: 0 <= i < |items| ==> Shaped(items[i], depth + 1)
       case Obj(fields) =>
         |fields| <= MAX_JSON_CONTAINER_ITEMS && forall i :: 0 <= i < |fields| ==> Shaped(fields[i].value, depth + 1)
       case _ => true
  }

  /** A JavaScript numeral is short and made of numeral units; every number in a frame is one. */
  ghost predicate Numerals(v: Json)
    decreases v
  {
    match v
    case Num(numeral) => ValidNumeral(numeral) && |numeral| <= 32
    case Arr(items) => forall i :: 0 <= i < |items| ==> Numerals(items[i])
    case Obj(fields) => forall i :: 0 <= i < |fields| ==> Numerals(fields[i].value)
    case _ => true
  }

  /** A whole root is admitted: what the traversal checks, whatever the order it checks it in. */
  predicate Admitted(v: Json) {
    Shaped(v, 0) && Items(v) <= MAX_JSON_ITEMS && StringBytes(v) <= MAX_JSON_STRING_BYTES
  }

  // ---------------------------------------------------------------- JSON tokens

  /** The traversal's counters: items and bytes of string values, each with a ceiling. */
  class JsonTraversal {
    var items: nat
    var stringBytes: nat

    constructor ()
      ensures items == 0 && stringBytes == 0
    {
      items, stringBytes := 0, 0;
    }

    /** The quoted string; `None` when the string ceiling is passed. */
    method StringTokens(s: Text, counted: bool) returns (r: Option<seq<Text>>)
      requires stringBytes <= MAX_JSON_STRING_BYTES
      modifies this
      ensures items == old(items)
      ensures r.Some? <==> (counted ==> old(stringBytes) + |Encode(s)| <= MAX_JSON_STRING_BYTES)
      ensures r.Some? ==> stringBytes == old(stringBytes) + if counted then |Encode(s)| else 0
      ensures r.Some? ==> Tokens(r.value, StringText(s))
    {
      hide Encode, Escape, Tokens, CodePointBytes, NeedsEscape, StringText;
      var tokens := [[QUOTE]];
      QuoteToken();
      EmptyRun(s);
      var runStart, runBytes, index := 0, 0, 0;
      while index < |s|
        invariant 0 <= runStart <= index <= |s| && Cut(s, runStart) && Cut(s, index)
        invariant Tokens(tokens, [QUOTE] + Escape(s[..runStart]))
        invariant Escape(s[..index]) == Escape(s[..runStart]) + s[runStart..index]
        invariant runStart < index ==> !IsLow(s[runStart])
        invariant runBytes == |Encode(s[runStart..index])| <= MAX_CHUNK_BYTES
        invariant index - runStart <= RAW_TOKEN_CODE_UNITS + 1
        invariant items == old(items)
        invariant stringBytes == old(stringBytes) + if counted then |Encode(s[..index])| else 0
        invariant stringBytes <= MAX_JSON_STRING_BYTES
      {
        var bytes := CodePointBytes(s, index);
        CodePointStep(s, 0, index);
        CodePointStep(s, runStart, index);
        EscapeStep(s, 0, index);
        assert s[0..index] == s[..index] && s[0..NextIndex(s, index)] == s[..NextIndex(s, index)];
        if counted {
          stringBytes := stringBytes + bytes;
          if stringBytes > MAX_JSON_STRING_BYTES {
            EncodeGrows(s, NextIndex(s, index));
            return None;
          }
        }
        if !Plain(s, index) {
          if runStart < index {
            RunToken(tokens, s, runStart, index);
            tokens := tokens + [s[runStart..index]];
          } else {
            assert s[runStart..index] == [];
          }
          EscapeToken(tokens, s, index);
          tokens := tokens + [EscapeUnit(s[index])];
          runStart, runBytes := index + 1, 0;
          index := index + 1;
          EmptyAt(s, index);
        } else {
          PlainStart(s, index);
          if runBytes > 0 && (runBytes + bytes > MAX_CHUNK_BYTES || index - runStart >= RAW_TOKEN_CODE_UNITS) {
            EncodeNonEmpty(s[runStart..index]);
            RunToken(tokens, s, runStart, index);
            tokens := tokens + [s[runStart..index]];
            runStart, runBytes := index, 0;
            EmptyAt(s, index);
            CodePointStep(s, runStart, index);
          }
          EncodeNonEmpty(s[runStart..index]);
          assert s[runStart..NextIndex(s, index)] == s[runStart..index] + s[index..NextIndex(s, index)];
          runBytes := runBytes + bytes;
          index := NextIndex(s, index);
        }
      }
      assert s[..|s|] == s;
      if runStart < |s| {
        RunToken(tokens, s, runStart, |s|);
        tokens := tokens + [s[runStart..|s|]];
      } else {
        assert s[runStart..|s|] == [];
      }
      CloseToken(tokens, s);
      return Some(tokens + [[QUOTE]]);
    }

    /** One value and everything below it; `None` is any of the traversal's errors. */
    method ValueTokens(v: Json, depth: nat) returns (r: Option<seq<Text>>)
      requires Numerals(v) && items <= MAX_JSON_ITEMS && stringBytes <= MAX_JSON_STRING_BYTES
      modifies this
      ensures r.Some? <==> Fits(v, depth, old(items), old(stringBytes))
      ensures r.Some? ==>
        items == old(items) + Items(v) && stringBytes == old(stringBytes) + StringBytes(v) &&
          Tokens(r.value, JsonText(v))
      decreases v
    {
      if depth > MAX_JSON_DEPTH { return None; }
      items := items + 1;
      if items > MAX_JSON_ITEMS { return None; }
      match v
      case Null => OneToken(NULL); return Some([NULL]);
      case Bool(b) =>
        var word := if b then TRUE else FALSE;
        OneToken(word);
        return Some([word]);
      case NegativeZero => OneToken(ZERO); return Some([ZERO]);
      case Num(numeral) => OneToken(numeral); return Some([numeral]);
      case Wild => return None;
      case Str(s) => r := StringTokens(s, true);
      case Arr(elements) =>
        if |elements| > MAX_JSON_CONTAINER_ITEMS { return None; }
        r := ArrayTokens(v, depth);
      case Obj(fields) =>
        if |fields| > MAX_JSON_CONTAINER_ITEMS { return None; }
        r := ObjectTokens(v, depth);
    }

    method ArrayTokens(v: Json, depth: nat) returns (r: Option<seq<Text>>)
      requires v.Arr? && Numerals(v) && items <= MAX_JSON_ITEMS && stringBytes <= MAX_JSON_STRING_BYTES
      requires |v.items| <= MAX_JSON_CONTAINER_ITEMS
      requires depth <= MAX_JSON_DEPTH && items > 0
      modifies this
      ensures r.Some? <==> Fits(v, depth, old(items) - 1, old(stringBytes))
      ensures r.Some? ==>
        items == old(items) + Items(v) - 1 && stringBytes == old(stringBytes) + StringBytes(v) &&
          Tokens(r.value, JsonText(v))
      decreases v, 0
    {
      hide Tokens, JsonText, Items, StringBytes, Shaped, ItemsAll, StringBytesAll, ItemsText, Numerals, Fits;
      var elements := v.items;
      ArrayMeans(v, depth);
      var tokens := [[OPEN_ARRAY]];
      OpenToken(OPEN_ARRAY, elements, []);
      var index := 0;
      while index < |elements|
        invariant 0 <= index <= |elements|
        invariant Tokens(tokens, [OPEN_ARRAY] + ItemsText(elements[..index]))
        invariant items == old(items) + ItemsAll(elements[..index]) <= MAX_JSON_ITEMS
        invariant stringBytes == old(stringBytes) + StringBytesAll(elements[..index]) <= MAX_JSON_STRING_BYTES
        invariant forall i :: 0 <= i < index ==> Shaped(elements[i], depth + 1)
      {
        ItemsPrefix(elements, index);
        ArrayChild(v, index);
        if index > 0 {
          CommaToken(tokens, [OPEN_ARRAY] + ItemsText(elements[..index]));
          tokens := tokens + [[COMMA]];
        }
        FitsMeans(elements[index], depth + 1, items, stringBytes);
        var child := ValueTokens(elements[index], depth + 1);
        if child.None? {
          return None;
        }
        ItemToken(tokens, elements, index, child.value);
        tokens := tokens + child.value;
        index := index + 1;
      }
      assert elements[..|elements|] == elements;
      CloseContainer(tokens, [OPEN_ARRAY] + ItemsText(elements), CLOSE_ARRAY);
      return Some(tokens + [[CLOSE_ARRAY]]);
    }

    method ObjectTokens(v: Json, depth: nat) returns (r: Option<seq<Text>>)
      requires v.Obj? && Numerals(v) && items <= MAX_JSON_ITEMS && stringBytes <= MAX_JSON_STRING_BYTES
      requires |v.fields| <= MAX_JSON_CONTAINER_ITEMS
      requires depth <= MAX_JSON_DEPTH && items > 0
      modifies this
      ensures r.Some? <==> Fits(v, depth, old(items) - 1, old(stringBytes))
      ensures r.Some? ==>
        items == old(items) + Items(v) - 1 && stringBytes == old(stringBytes) + StringBytes(v) &&
          Tokens(r.value, JsonText(v))
      decreases v, 0
    {
      hide Tokens, JsonText, Items, StringBytes, Shaped, ItemsFields, StringBytesFields, FieldsText, StringText,
        Numerals, Fits;
      var fields := v.fields;
      ObjectMeans(v, depth);
      var tokens := [[OPEN_OBJECT]];
      OpenToken(OPEN_OBJECT, [], fields);
      var index := 0;
      while index < |fields|
        invariant 0 <= index <= |fields|
        invariant Tokens(tokens, [OPEN_OBJECT] + FieldsText(fields[..index]))
        invariant items == old(items) + ItemsFields(fields[..index]) <= MAX_JSON_ITEMS
        invariant stringBytes == old(stringBytes) + StringBytesFields(fields[..index]) <= MAX_JSON_STRING_BYTES
        invariant forall i :: 0 <= i < index ==> Shaped(fields[i].value, depth + 1)
      {
        FieldsPrefix(fields, index);
        ObjectChild(v, index);
        if index > 0 {
          CommaToken(tokens, [OPEN_OBJECT] + FieldsText(fields[..index]));
          tokens := tokens + [[COMMA]];
        }
        var key := StringTokens(fields[index].key, false);
        FitsMeans(fields[index].value, depth + 1, items, stringBytes);
        var child := ValueTokens(fields[index].value, depth + 1);
        if child.None? {
          return None;
        }
        FieldTokens(fields[index], key.value, child.value);
        FieldToken(tokens, fields, index, key.value + [[COLON]] + child.value);
        tokens := tokens + (key.value + [[COLON]] + child.value);
        index := index + 1;
      }
      assert fields[..|fields|] == fields;
      CloseContainer(tokens, [OPEN_OBJECT] + FieldsText(fields), CLOSE_OBJECT);
      return Some(tokens + [[CLOSE_OBJECT]]);
    }
  }

  predicate Fits(v: Json, depth: nat, items: nat, stringBytes: nat) {
    Shaped(v, depth) && items + Items(v) <= MAX_JSON_ITEMS && stringBytes + StringBytes(v) <= MAX_JSON_STRING_BYTES
  }

  lemma FitsMeans(v: Json, depth: nat, items: nat, stringBytes: nat)
    ensures Fits(v, depth, items, stringBytes) <==>
              Shaped(v, depth) && items + Items(v) <= MAX_JSON_ITEMS &&
                stringBytes + StringBytes(v) <= MAX_JSON_STRING_BYTES
  {
  }

  lemma ArrayMeans(v: Json, depth: nat)
    requires v.Arr? && |v.items| <= MAX_JSON_CONTAINER_ITEMS && depth <= MAX_JSON_DEPTH
    ensures forall i: nat, b: nat :: Fits(v, depth, i, b) <==>
              && (forall j :: 0 <= j < |v.items| ==> Shaped(v.items[j], depth + 1))
              && i + 1 + ItemsAll(v.items) <= MAX_JSON_ITEMS && b + StringBytesAll(v.items) <= MAX_JSON_STRING_BYTES
    ensures Items(v) == 1 + ItemsAll(v.items) && StringBytes(v) == StringBytesAll(v.items)
    ensures JsonText(v) == [OPEN_ARRAY] + ItemsText(v.items) + [CLOSE_ARRAY]
    ensures ItemsAll(v.items[..0]) == 0 && StringBytesAll(v.items[..0]) == 0 && ItemsText(v.items[..0]) == []
  {
  }

  lemma ObjectMeans(v: Json, depth: nat)
    requires v.Obj? && |v.fields| <= MAX_JSON_CONTAINER_ITEMS && depth <= MAX_JSON_DEPTH
    ensures forall i: nat, b: nat :: Fits(v, depth, i, b) <==>
              && (forall j :: 0 <= j < |v.fields| ==> Shaped(v.fields[j].value, depth + 1))
              && i + 1 + ItemsFields(v.fields) <= MAX_JSON_ITEMS
              && b + StringBytesFields(v.fields) <= MAX_JSON_STRING_BYTES
    ensures Items(v) == 1 + ItemsFields(v.fields) && StringBytes(v) == StringBytesFields(v.fields)
    ensures JsonText(v) == [OPEN_OBJECT] + FieldsText(v.fields) + [CLOSE_OBJECT]
    ensures ItemsFields(v.fields[..0]) == 0 && StringBytesFields(v.fields[..0]) == 0 && FieldsText(v.fields[..0]) == []
  {
  }

  lemma ArrayChild(v: Json, i: nat)
    requires v.Arr? && Numerals(v) && i < |v.items|
    ensures Numerals(v.items[i])
  {
  }

  lemma ObjectChild(v: Json, i: nat)
    requires v.Obj? && Numerals(v) && i < |v.fields|
    ensures Numerals(v.fields[i].value) && v.fields[i].value < v
  {
  }

  /** The sums and texts of a prefix: one more element, and never more than the whole. */
  lemma {:induction false} ItemsPrefix(items: seq<Json>, i: nat)
    requires i < |items|
    ensures ItemsAll(items[..i + 1]) == ItemsAll(items[..i]) + Items(items[i]) <= ItemsAll(items)
    ensures StringBytesAll(items[..i + 1]) ==
      StringBytesAll(items[..i]) + StringBytes(items[i]) <= StringBytesAll(items)
    ensures ItemsText(items[..i + 1]) ==
      (if i == 0 then JsonText(items[i]) else ItemsText(items[..i]) + [COMMA] + JsonText(items[i]))
    decreases i
  {
    hide Items, StringBytes, JsonText;
    if i == 0 {
      assert items[..1] == [items[0]];
      assert ItemsAll([items[0]][1..]) == 0 && StringBytesAll([items[0]][1..]) == 0;
    } else {
      var rest := items[1..];
      ItemsPrefix(rest, i - 1);
      assert items[..i + 1][1..] == rest[..i] && items[..i][1..] == rest[..i - 1];
      if i == 1 { assert rest[..0] == []; }
      assert JsonText(items[0]) + [COMMA] + (ItemsText(rest[..i - 1]) + [COMMA] + JsonText(items[i]))
          == JsonText(items[0]) + [COMMA] + ItemsText(rest[..i - 1]) + [COMMA] + JsonText(items[i]);
    }
  }

  lemma {:induction false} FieldsPrefix(fields: seq<Field>, i: nat)
    requires i < |fields|
    ensures ItemsFields(fields[..i + 1]) == ItemsFields(fields[..i]) + Items(fields[i].value) <= ItemsFields(fields)
    ensures StringBytesFields(fields[..i + 1]) ==
      StringBytesFields(fields[..i]) + StringBytes(fields[i].value) <= StringBytesFields(fields)
    ensures FieldsText(fields[..i + 1]) ==
      (if i == 0 then FieldText(fields[i]) else FieldsText(fields[..i]) + [COMMA] + FieldText(fields[i]))
    decreases i
  {
    hide Items, StringBytes, FieldText;
    if i == 0 {
      assert fields[..1] == [fields[0]];
      assert ItemsFields([fields[0]][1..]) == 0 && StringBytesFields([fields[0]][1..]) == 0;
    } else {
      var rest := fields[1..];
      FieldsPrefix(rest, i - 1);
      assert fields[..i + 1][1..] == rest[..i] && fields[..i][1..] == rest[..i - 1];
      if i == 1 { assert rest[..0] == []; }
      assert FieldText(fields[0]) + [COMMA] + (FieldsText(rest[..i - 1]) + [COMMA] + FieldText(fields[i]))
          == FieldText(fields[0]) + [COMMA] + FieldsText(rest[..i - 1]) + [COMMA] + FieldText(fields[i]);
    }
  }

  lemma OneToken(t: Text)
    requires t != [] && |t| <= 32
    ensures Tokens([t], t)
  {
    EncodeLength(t);
    NoTokens(t);
    TokensSnoc([], t[..0], t);
    assert [] + [t] == [t] && t[..0] + t == t;
  }

  lemma OpenToken(u: Unit, items: seq<Json>, fields: seq<Field>)
    requires u == OPEN_ARRAY || u == OPEN_OBJECT
    ensures Tokens([[u]], [u] + ItemsText(items[..0])) && Tokens([[u]], [u] + FieldsText(fields[..0]))
  {
    OneToken([u]);
    assert [u] + [] == [u];
  }

  lemma CommaToken(tokens: seq<Text>, s: Text)
    requires Tokens(tokens, s)
    ensures Tokens(tokens + [[COMMA]], s + [COMMA])
  {
    EncodeLength([COMMA]);
    TokensSnoc(tokens, s, [COMMA]);
  }

  lemma CloseContainer(tokens: seq<Text>, s: Text, u: Unit)
    requires Tokens(tokens, s) && (u == CLOSE_ARRAY || u == CLOSE_OBJECT || u == COLON)
    ensures Tokens(tokens + [[u]], s + [u])
  {
    EncodeLength([u]);
    TokensSnoc(tokens, s, [u]);
  }

  /** No value's text begins with the second half of a pair. */
  lemma StartsPlain(v: Json)
    requires Numerals(v)
    ensures JsonText(v) != [] ==> !IsLow(JsonText(v)[0])
  {
  }

  lemma ItemToken(tokens: seq<Text>, items: seq<Json>, i: nat, child: seq<Text>)
    requires i < |items| && Numerals(items[i]) && Tokens(child, JsonText(items[i]))
    requires Tokens(tokens, if i == 0 then [OPEN_ARRAY] + ItemsText(items[..0])
                            else [OPEN_ARRAY] + ItemsText(items[..i]) + [COMMA])
    ensures Tokens(tokens + child, [OPEN_ARRAY] + ItemsText(items[..i + 1]))
  {
    var before := if i == 0 then [OPEN_ARRAY] + ItemsText(items[..0])
      else [OPEN_ARRAY] + ItemsText(items[..i]) + [COMMA];
    hide Tokens, JsonText, ItemsText, Numerals;
    StartsPlain(items[i]);
    ItemsPrefix(items, i);
    NoItemsText(items);
    TokensConcat(tokens, before, child, JsonText(items[i]));
    Regroup(OPEN_ARRAY, ItemsText(items[..i]), JsonText(items[i]));
  }

  lemma Regroup(open: Unit, before: Text, next: Text)
    ensures [open] + before + [COMMA] + next == [open] + (before + [COMMA] + next)
    ensures before == [] ==> [open] + before + next == [open] + next
  {
  }

  lemma FieldTokens(f: Field, key: seq<Text>, child: seq<Text>)
    requires Numerals(f.value) && Tokens(key, StringText(f.key)) && Tokens(child, JsonText(f.value))
    ensures Tokens(key + [[COLON]] + child, FieldText(f)) && FieldText(f) != [] && FieldText(f)[0] == QUOTE
  {
    hide Tokens, JsonText, StringText, Numerals;
    StartsPlain(f.value);
    KeyStart(f.key);
    CloseContainer(key, StringText(f.key), COLON);
    TokensConcat(key + [[COLON]], StringText(f.key) + [COLON], child, JsonText(f.value));
  }

  lemma FieldToken(tokens: seq<Text>, fields: seq<Field>, i: nat, field: seq<Text>)
    requires i < |fields| && Tokens(field, FieldText(fields[i])) && FieldText(fields[i]) != []
    requires FieldText(fields[i])[0] == QUOTE
    requires Tokens(tokens, if i == 0 then [OPEN_OBJECT] + FieldsText(fields[..0])
                            else [OPEN_OBJECT] + FieldsText(fields[..i]) + [COMMA])
    ensures Tokens(tokens + field, [OPEN_OBJECT] + FieldsText(fields[..i + 1]))
  {
    var before := if i == 0 then [OPEN_OBJECT] + FieldsText(fields[..0])
      else [OPEN_OBJECT] + FieldsText(fields[..i]) + [COMMA];
    hide Tokens, FieldText, FieldsText;
    FieldsPrefix(fields, i);
    NoFieldsText(fields);
    TokensConcat(tokens, before, field, FieldText(fields[i]));
    Regroup(OPEN_OBJECT, FieldsText(fields[..i]), FieldText(fields[i]));
  }

  lemma NoItemsText(items: seq<Json>)
    ensures ItemsText(items[..0]) == []
  {
  }

  lemma NoFieldsText(fields: seq<Field>)
    ensures FieldsText(fields[..0]) == []
  {
  }

  lemma KeyStart(s: Text)
    ensures StringText(s) != [] && StringText(s)[0] == QUOTE
  {
  }

  lemma QuoteToken()
    ensures Tokens([[QUOTE]], [QUOTE] + Escape([][..0]))
  {
    assert Joined([[QUOTE]]) == Joined<Unit>([]) + [QUOTE];
    assert Encoded([[QUOTE]]) == [Encode([QUOTE])];
    assert Joined([Encode([QUOTE])]) == Joined<Byte>([]) + Encode([QUOTE]);
    assert [QUOTE] + Escape([]) == [QUOTE];
  }

  lemma EmptyAt(s: Text, i: nat)
    requires i <= |s|
    ensures s[i..i] == [] && Encode(s[i..i]) == []
  {
  }

  lemma PlainStart(s: Text, i: nat)
    requires i < |s| && Plain(s, i)
    ensures !IsLow(s[i])
  {
  }

  lemma EmptyRun(s: Text)
    ensures Encode(s[0..0]) == [] && Encode(s[..0]) == [] && Escape(s[..0]) == Escape([][..0]) + s[0..0]
    ensures Escape(s[..0]) == Escape([][..0])
  {
  }

  lemma RunToken(tokens: seq<Text>, s: Text, runStart: nat, index: nat)
    requires runStart < index <= |s| && !IsLow(s[runStart])
    requires Tokens(tokens, [QUOTE] + Escape(s[..runStart]))
    requires Escape(s[..index]) == Escape(s[..runStart]) + s[runStart..index]
    requires |Encode(s[runStart..index])| <= MAX_CHUNK_BYTES && index - runStart <= RAW_TOKEN_CODE_UNITS + 1
    ensures Tokens(tokens + [s[runStart..index]], [QUOTE] + Escape(s[..index]))
  {
    hide Encode, Escape, Tokens;
    TokensSnoc(tokens, [QUOTE] + Escape(s[..runStart]), s[runStart..index]);
    assert [QUOTE] + Escape(s[..runStart]) + s[runStart..index] == [QUOTE] + Escape(s[..index]);
  }

  lemma EscapeToken(tokens: seq<Text>, s: Text, index: nat)
    requires index < |s| && Cut(s, index) && !Plain(s, index)
    requires Tokens(tokens, [QUOTE] + Escape(s[..index]))
    ensures Tokens(tokens + [EscapeUnit(s[index])], [QUOTE] + Escape(s[..index + 1]))
  {
    EscapeUnitBounded(s[index]);
    EscapeStep(s, 0, index);
    assert s[0..index] == s[..index] && s[0..index + 1] == s[..index + 1];
    hide Encode, Escape, Tokens, EscapeUnit;
    TokensSnoc(tokens, [QUOTE] + Escape(s[..index]), EscapeUnit(s[index]));
    assert [QUOTE] + Escape(s[..index]) + EscapeUnit(s[index]) == [QUOTE] + (Escape(s[..index]) + EscapeUnit(s[index]));
  }

  lemma {:induction false} EncodeLength(t: Text)
    ensures |Encode(t)| <= 3 * |t|
  {
    if t == [] {} else if PairAt(t, 0) { EncodeLength(t[2..]); } else { EncodeLength(t[1..]); }
  }

  lemma EscapeUnitBounded(u: Unit)
    ensures Bounded(EscapeUnit(u)) && (NeedsEscape(u) ==> !IsLow(EscapeUnit(u)[0]))
  {
    EncodeLength(EscapeUnit(u));
  }

  lemma CloseToken(tokens: seq<Text>, s: Text)
    requires Tokens(tokens, [QUOTE] + Escape(s))
    ensures Tokens(tokens + [[QUOTE]], StringText(s))
  {
    EncodeLength([QUOTE]);
    TokensSnoc(tokens, [QUOTE] + Escape(s), [QUOTE]);
  }

  lemma EncodeGrows(s: Text, i: nat)
    requires i <= |s| && Cut(s, i)
    ensures |Encode(s[..i])| <= |Encode(s)|
  {
    assert s == s[..i] + s[i..];
    EncodeConcat(s[..i], s[i..]);
  }

  // ---------------------------------------------------------------- chunks

  /** `encoded.copy(chunk, at)`, which never truncates here. */
  method CopyInto(chunk: array<Byte>, at: nat, encoded: seq<Byte>)
    requires at + |encoded| <= chunk.Length
    modifies chunk
    ensures chunk[..at + |encoded|] == old(chunk[..at]) + encoded
  {
    forall i | 0 <= i < |encoded| { chunk[at + i] := encoded[i]; }
  }

  /** Packs the encoded tokens into a buffer that is handed out whenever the next token would not fit. */
  method EncodedChunks(tokens: seq<Text>, s: Text, maxBytes: nat) returns (r: Option<seq<seq<Byte>>>)
    requires Tokens(tokens, s)
    ensures r.Some? <==> |Encode(s)| <= maxBytes
    ensures r.Some? ==>
      Joined(r.value) == Encode(s) && forall i :: 0 <= i < |r.value| ==> 0 < |r.value[i]| <= MAX_CHUNK_BYTES
  {
    hide Encode, Joined, Tokens, Encoded;
    ghost var parts := Encoded(tokens);
    TokensMean(tokens, s);
    var chunks: seq<seq<Byte>> := [];
    var chunk := new Byte[MAX_CHUNK_BYTES];
    var chunkBytes, totalBytes, index := 0, 0, 0;
    NothingJoined(parts);
    while index < |tokens|
      invariant 0 <= index <= |tokens| && 0 <= chunkBytes <= MAX_CHUNK_BYTES && fresh(chunk)
      invariant chunk.Length == MAX_CHUNK_BYTES
      invariant Joined(chunks) + chunk[..chunkBytes] == Joined(parts[..index])
      invariant totalBytes == |Joined(parts[..index])| <= maxBytes
      invariant forall i :: 0 <= i < |chunks| ==> 0 < |chunks[i]| <= MAX_CHUNK_BYTES
    {
      var encoded := Encode(tokens[index]);
      PrefixJoined(parts, index);
      if totalBytes + |encoded| > maxBytes {
        return None;
      }
      totalBytes := totalBytes + |encoded|;
      if chunkBytes > 0 && chunkBytes + |encoded| > MAX_CHUNK_BYTES {
        JoinedSnoc(chunks, chunk[..chunkBytes]);
        chunks := chunks + [chunk[..chunkBytes]];
        chunk := new Byte[MAX_CHUNK_BYTES];
        chunkBytes := 0;
      }
      CopyInto(chunk, chunkBytes, encoded);
      chunkBytes := chunkBytes + |encoded|;
      index := index + 1;
    }
    assert parts[..|tokens|] == parts;
    if chunkBytes > 0 {
      JoinedSnoc(chunks, chunk[..chunkBytes]);
      chunks := chunks + [chunk[..chunkBytes]];
    } else {
      assert chunk[..chunkBytes] == [];
    }
    return Some(chunks);
  }

  lemma TokensMean(tokens: seq<Text>, s: Text)
    requires Tokens(tokens, s)
    ensures |Encoded(tokens)| == |tokens| && Joined(Encoded(tokens)) == Encode(s)
    ensures forall i :: 0 <= i < |tokens| ==>
      Encoded(tokens)[i] == Encode(tokens[i]) && |Encode(tokens[i])| <= MAX_CHUNK_BYTES
  {
  }

  lemma NothingJoined(parts: seq<seq<Byte>>)
    ensures Joined<Byte>([]) == [] && Joined(parts[..0]) == []
  {
  }

  lemma {:induction false} PrefixJoined(parts: seq<seq<Byte>>, i: nat)
    requires i < |parts|
    ensures Joined(parts[..i + 1]) == Joined(parts[..i]) + parts[i]
    ensures |Joined(parts[..i + 1])| <= |Joined(parts)|
    decreases |parts|
  {
    assert parts[..i + 1][..i] == parts[..i];
    if i + 1 == |parts| {
      assert parts[..i + 1] == parts;
    } else {
      var front := parts[..|parts| - 1];
      PrefixJoined(front, i);
      assert front[..i + 1] == parts[..i + 1];
    }
  }

  // ---------------------------------------------------------------- prepared encodings

  /** Text: every text is encoded, if it is short enough. */
  method PrepareText(s: Text, maxBytes: nat) returns (r: Option<seq<seq<Byte>>>)
    ensures r.Some? <==> |Encode(s)| <= maxBytes
    ensures r.Some? ==> Joined(r.value) == Encode(s)
  {
    var tokens := RawUtf8Tokens(s);
    r := EncodedChunks(tokens, s, maxBytes);
  }

  /** JSON: exactly the admitted values are encoded, as their canonical text. */
  method PrepareJson(v: Json, maxBytes: nat) returns (r: Option<seq<seq<Byte>>>)
    requires Numerals(v)
    ensures r.Some? <==> Admitted(v) && |Encode(JsonText(v))| <= maxBytes
    ensures r.Some? ==> Joined(r.value) == Encode(JsonText(v))
  {
    var traversal := new JsonTraversal();
    var tokens := traversal.ValueTokens(v, 0);
    if tokens.None? { return None; }
    r := EncodedChunks(tokens.value, JsonText(v), maxBytes);
  }
}
