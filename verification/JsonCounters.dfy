/** Two more byte counters, the logical-size counter's JSON part and the product guard's, against the size of
    the canonical encoding. */
module JsonCounters {
  import opened Prelude
  import opened Utf8
  import opened Json
  import opened BoundedUtf8Codec

  const GUARD_STRING_BYTES: nat := 8388608

  // ---------------------------------------------------------------- the size of canonical text

  function JsonBytes(v: Json): nat
    decreases v
  {
    match v
    case Null => 4
    case Bool(b) => if b then 4 else 5
    case NegativeZero => 1
    case Num(numeral) => |numeral|
    case Wild => 0
    case Str(s) => |Encode(StringText(s))|
    case Arr(items) => 2 + Separators(|items|) + JsonBytesAll(items)
    case Obj(fields) => 2 + Separators(|fields|) + FieldBytesAll(fields)
  }

  function Separators(n: nat): nat { if n == 0 then 0 else n - 1 }

  function JsonBytesAll(items: seq<Json>): nat
    decreases items
  {
    if items == [] then 0 else JsonBytes(items[0]) + JsonBytesAll(items[1..])
  }

  function FieldBytes(f: Field): nat
    decreases f
  {
    |Encode(StringText(f.key))| + 1 + JsonBytes(f.value)
  }

  function FieldBytesAll(fields: seq<Field>): nat
    decreases fields
  {
    if fields == [] then 0 else FieldBytes(fields[0]) + FieldBytesAll(fields[1..])
  }

  lemma {:induction false} AsciiEncode(t: Text)
    requires forall i :: 0 <= i < |t| ==> t[i] <= 0x7F
    ensures |Encode(t)| == |t|
  {
    if t != [] { AsciiEncode(t[1..]); }
  }

  lemma AppendAscii(s: Text, u: Unit)
    requires u <= 0x7F
    ensures |Encode(s + [u])| == |Encode(s)| + 1
  {
    EncodeConcat(s, [u]);
    assert [u][1..] == [];
  }

  lemma PrependAscii(u: Unit, s: Text)
    requires u <= 0x7F
    ensures |Encode([u] + s)| == 1 + |Encode(s)|
  {
    EncodeConcat([u], s);
    assert [u][1..] == [];
  }

  lemma {:induction false} JsonBytesExact(v: Json)
    requires Numerals(v)
    ensures JsonBytes(v) == |Encode(JsonText(v))|
    decreases v
  {
    match v
    case Null => AsciiEncode(NULL);
    case Bool(b) => AsciiEncode(TRUE); AsciiEncode(FALSE);
    case NegativeZero => AsciiEncode(ZERO);
    case Num(numeral) => AsciiEncode(numeral);
    case Wild =>
    case Str(_) =>
    case Arr(items) =>
      ItemsBytesExact(items);
      PrependAscii(OPEN_ARRAY, ItemsText(items));
      AppendAscii([OPEN_ARRAY] + ItemsText(items), CLOSE_ARRAY);
    case Obj(fields) =>
      FieldsBytesExact(fields);
      PrependAscii(OPEN_OBJECT, FieldsText(fields));
      AppendAscii([OPEN_OBJECT] + FieldsText(fields), CLOSE_OBJECT);
  }

  lemma {:induction false} ItemsBytesExact(items: seq<Json>)
    requires forall i :: 0 <= i < |items| ==> Numerals(items[i])
    ensures |Encode(ItemsText(items))| == Separators(|items|) + JsonBytesAll(items)
    decreases items
  {
    hide JsonText, JsonBytes, Encode;
    if |items| == 0 {
      NothingEncodes();
    } else {
      JsonBytesExact(items[0]);
      assert items[1..] == [] ==> JsonBytesAll(items[1..]) == 0;
      if |items| > 1 {
        ItemsBytesExact(items[1..]);
        AppendAscii(JsonText(items[0]), COMMA);
        EncodeConcat(JsonText(items[0]) + [COMMA], ItemsText(items[1..]));
      }
    }
  }

  lemma NothingEncodes()
    ensures Encode([]) == []
  {
  }

  lemma {:induction false} FieldBytesExact(f: Field)
    requires Numerals(f.value)
    ensures |Encode(FieldText(f))| == FieldBytes(f)
    decreases f
  {
    hide JsonText, JsonBytes, StringText, Encode, Numerals;
    JsonBytesExact(f.value);
    AppendAscii(StringText(f.key), COLON);
    EncodeConcat(StringText(f.key) + [COLON], JsonText(f.value));
  }

  lemma {:induction false} FieldsBytesExact(fields: seq<Field>)
    requires forall i :: 0 <= i < |fields| ==> Numerals(fields[i].value)
    ensures |Encode(FieldsText(fields))| == Separators(|fields|) + FieldBytesAll(fields)
    decreases fields
  {
    hide FieldText, FieldBytes, Encode;
    if |fields| == 0 {
      NothingEncodes();
    } else {
      FieldBytesExact(fields[0]);
      assert fields[1..] == [] ==> FieldBytesAll(fields[1..]) == 0;
      if |fields| > 1 {
        FieldsBytesExact(fields[1..]);
        AppendAscii(FieldText(fields[0]), COMMA);
        EncodeConcat(FieldText(fields[0]) + [COMMA], FieldsText(fields[1..]));
      }
    }
  }

  lemma JsonPrefix(items: seq<Json>, i: nat)
    requires i < |items|
    ensures JsonBytesAll(items[..i + 1]) == JsonBytesAll(items[..i]) + JsonBytes(items[i]) <= JsonBytesAll(items)
    decreases i
  {
    hide JsonBytes;
    if i == 0 {
      assert items[..1] == [items[0]] && JsonBytesAll([items[0]][1..]) == 0;
    } else {
      JsonPrefix(items[1..], i - 1);
      assert items[..i + 1][1..] == items[1..][..i] && items[..i][1..] == items[1..][..i - 1];
    }
  }

  lemma FieldPrefix(fields: seq<Field>, i: nat)
    requires i < |fields|
    ensures FieldBytesAll(fields[..i + 1]) ==
      FieldBytesAll(fields[..i]) + FieldBytes(fields[i]) <= FieldBytesAll(fields)
    decreases i
  {
    hide FieldBytes;
    if i == 0 {
      assert fields[..1] == [fields[0]] && FieldBytesAll([fields[0]][1..]) == 0;
    } else {
      FieldPrefix(fields[1..], i - 1);
      assert fields[..i + 1][1..] == fields[1..][..i] && fields[..i][1..] == fields[1..][..i - 1];
    }
  }

  // ---------------------------------------------------------------- strings, unit by unit

  /** What one code point adds to the size of a quoted string. */
  function QuotedBytes(s: Text, i: nat): nat
    requires i < |s|
  {
    if s[i] == QUOTE || s[i] == BACKSLASH then 2
    else if s[i] <= 0x1F then (if ShortEscape(s[i]).Some? then 2 else 6)
    else if PairAt(s, i) then 4
    else if IsSurrogate(s[i]) then 6
    else if s[i] <= 0x7F then 1
    else if s[i] <= 0x7FF then 2
    else 3
  }

  lemma QuotedStep(s: Text, i: nat)
    requires i < |s| && Cut(s, i)
    ensures var next := NextIndex(s, i);
            Cut(s, next) && |Encode(Escape(s[..next]))| == |Encode(Escape(s[..i]))| + QuotedBytes(s, i)
  {
    hide Encode, Escape, EscapeUnit, QuotedBytes, Plain, CodePointBytes;
    var next := NextIndex(s, i);
    EscapeStep(s, 0, i);
    assert s[0..i] == s[..i] && s[0..next] == s[..next];
    CodePointStep(s, i, i);
    QuotedUnit(s, i);
    if Plain(s, i) {
      PlainStart(s, i);
      EncodeConcat(Escape(s[..i]), s[i..next]);
    } else {
      EncodeConcat(Escape(s[..i]), EscapeUnit(s[i]));
    }
  }

  /** A code point is charged what its escape, or else itself, encodes to. */
  lemma QuotedUnit(s: Text, i: nat)
    requires i < |s|
    ensures Encode(s[i..i]) == []
    ensures if Plain(s, i) then QuotedBytes(s, i) == CodePointBytes(s, i)
      else QuotedBytes(s, i) == |Encode(EscapeUnit(s[i]))| && (EscapeUnit(s[i]) == [] || !IsLow(EscapeUnit(s[i])[0]))
  {
    if !Plain(s, i) { AsciiEncode(EscapeUnit(s[i])); }
  }

  lemma QuotedWhole(s: Text)
    ensures |Encode(StringText(s))| == 2 + |Encode(Escape(s))|
    ensures Encode(Escape(s[..0])) == [] && Escape(s[..|s|]) == Escape(s)
  {
    PrependAscii(QUOTE, Escape(s));
    AppendAscii([QUOTE] + Escape(s), QUOTE);
    assert s[..|s|] == s;
  }

  lemma QuotedGrows(s: Text, i: nat)
    requires i <= |s| && Cut(s, i)
    ensures |Encode(Escape(s[..i]))| <= |Encode(Escape(s))|
  {
    assert s == s[..i] + s[i..];
    EscapeConcat(s[..i], s[i..]);
    EscapeStart(s[i..]);
    if s[i..] != [] && IsLow(s[i]) { assert Separable(s[..i], s[i..]); }
    EncodeConcat(Escape(s[..i]), Escape(s[i..]));
  }

  lemma EscapeStart(s: Text)
    ensures Escape(s) != [] ==> !IsLow(Escape(s)[0])
  {
    if s != [] && !PairAt(s, 0) { EscapeUnitBounded(s[0]); }
  }

  // ---------------------------------------------------------------- the logical-size counter

  /** A counter that refuses to pass its limit. */
  class LogicalByteCounter {
    const limit: nat
    var bytes: nat

    constructor (limit: nat)
      ensures this.limit == limit && bytes == 0
    {
      this.limit := limit;
      bytes := 0;
    }

    method Add(amount: nat) returns (ok: bool)
      requires bytes <= limit
      modifies this
      ensures ok <==> old(bytes) + amount <= limit
      ensures bytes == if ok then old(bytes) + amount else old(bytes)
    {
      if amount > limit - bytes { return false; }
      bytes := bytes + amount;
      return true;
    }

    method CountRawUtf8(s: Text) returns (ok: bool)
      requires bytes <= limit
      modifies this
      ensures ok <==> old(bytes) + |Encode(s)| <= limit
      ensures ok ==> bytes == old(bytes) + |Encode(s)|
      ensures bytes <= limit
    {
      hide Encode;
      var index := 0;
      EmptyAt(s, 0);
      while index < |s|
        invariant 0 <= index <= |s| && Cut(s, index)
        invariant bytes == old(bytes) + |Encode(s[0..index])| <= limit
      {
        CodePointStep(s, 0, index);
        var next := NextIndex(s, index);
        assert s[0..next] == s[..next];
        EncodeGrows(s, next);
        ok := Add(CodePointBytes(s, index));
        if !ok { return; }
        index := next;
      }
      assert s[0..|s|] == s;
      return true;
    }

    method CountJsonString(s: Text) returns (ok: bool)
      requires bytes <= limit
      modifies this
      ensures ok <==> old(bytes) + |Encode(StringText(s))| <= limit
      ensures ok ==> bytes == old(bytes) + |Encode(StringText(s))|
      ensures bytes <= limit
    {
      hide Encode, Escape, StringText, QuotedBytes;
      QuotedWhole(s);
      ok := Add(2);
      if !ok { return; }
      var index := 0;
      while index < |s|
        invariant 0 <= index <= |s| && Cut(s, index)
        invariant bytes == old(bytes) + 2 + |Encode(Escape(s[..index]))| <= limit
      {
        QuotedStep(s, index);
        var next := NextIndex(s, index);
        QuotedGrows(s, next);
        ok := Add(QuotedBytes(s, index));
        if !ok { return; }
        index := next;
      }
      return true;
    }
  }

  // ---------------------------------------------------------------- the product guard

  method IsUtf8BytesBelow(s: Text, exclusiveLimit: nat) returns (below: bool)
    requires exclusiveLimit > 0
    ensures below <==> |Encode(s)| < exclusiveLimit
  {
    hide Encode;
    var bytes, index := 0, 0;
    EmptyAt(s, 0);
    while index < |s|
      invariant 0 <= index <= |s| && Cut(s, index)
      invariant bytes == |Encode(s[0..index])| < exclusiveLimit
    {
      CodePointStep(s, 0, index);
      var next := NextIndex(s, index);
      assert s[0..next] == s[..next];
      EncodeGrows(s, next);
      bytes := bytes + CodePointBytes(s, index);
      index := next;
      if bytes >= exclusiveLimit { return false; }
    }
    assert s[0..|s|] == s;
    return true;
  }

  /** What the guard accepts: the codec's shape, and sizes under its own limits. */
  predicate GuardFits(v: Json, depth: nat, items: nat, stringBytes: nat, encoded: nat, limit: nat) {
    && Shaped(v, depth) && items + Items(v) <= MAX_JSON_ITEMS
    && stringBytes + StringBytes(v) <= GUARD_STRING_BYTES && encoded + JsonBytes(v) < limit
  }

  class JsonValidation {
    const exclusiveLimit: nat
    var encodedBytes: nat
    var stringBytes: nat
    var items: nat

    constructor (exclusiveLimit: nat)
      ensures this.exclusiveLimit == exclusiveLimit && encodedBytes == 0 && stringBytes == 0 && items == 0
    {
      this.exclusiveLimit := exclusiveLimit;
      encodedBytes, stringBytes, items := 0, 0, 0;
    }

    predicate Within() reads this {
      encodedBytes < exclusiveLimit && stringBytes <= GUARD_STRING_BYTES && items <= MAX_JSON_ITEMS
    }

    method AddBytes(bytes: nat) returns (ok: bool)
      modifies this`encodedBytes
      ensures encodedBytes == old(encodedBytes) + bytes && (ok <==> encodedBytes < exclusiveLimit)
    {
      encodedBytes := encodedBytes + bytes;
      ok := encodedBytes < exclusiveLimit;
    }

    method AddStringBytes(s: Text, counted: bool) returns (ok: bool)
      requires Within()
      modifies this`encodedBytes, this`stringBytes
      ensures ok <==> old(encodedBytes) + |Encode(StringText(s))| < exclusiveLimit
                      && (counted ==> old(stringBytes) + |Encode(s)| <= GUARD_STRING_BYTES)
      ensures ok ==> Within() && encodedBytes == old(encodedBytes) + |Encode(StringText(s))|
      ensures ok ==> stringBytes == old(stringBytes) + if counted then |Encode(s)| else 0
    {
      hide Encode, Escape, StringText, QuotedBytes;
      QuotedWhole(s);
      ok := AddBytes(2);
      if !ok { return; }
      var index := 0;
      EmptyAt(s, 0);
      while index < |s|
        invariant 0 <= index <= |s| && Cut(s, index)
        invariant encodedBytes == old(encodedBytes) + 2 + |Encode(Escape(s[..index]))| < exclusiveLimit
        invariant stringBytes == old(stringBytes) + (if counted then |Encode(s[0..index])| else 0) <= GUARD_STRING_BYTES
      {
        QuotedStep(s, index);
        CodePointStep(s, 0, index);
        var next := NextIndex(s, index);
        assert s[0..next] == s[..next];
        QuotedGrows(s, next);
        EncodeGrows(s, next);
        if counted {
          stringBytes := stringBytes + CodePointBytes(s, index);
          if stringBytes > GUARD_STRING_BYTES { return false; }
        }
        ok := AddBytes(QuotedBytes(s, index));
        if !ok { return; }
        index := next;
      }
      assert s[0..|s|] == s;
      return true;
    }

    method AddValueBytes(v: Json, depth: nat) returns (ok: bool)
      requires Within() && Numerals(v)
      modifies this
      ensures ok <==> GuardFits(v, depth, old(items), old(stringBytes), old(encodedBytes), exclusiveLimit)
      ensures ok ==> Within() && items == old(items) + Items(v) && stringBytes == old(stringBytes) + StringBytes(v)
                     && encodedBytes == old(encodedBytes) + JsonBytes(v)
      decreases v
    {
      if depth > MAX_JSON_DEPTH { return false; }
      items := items + 1;
      if items > MAX_JSON_ITEMS { return false; }
      match v
      case Null => ok := AddBytes(4);
      case Bool(b) => ok := AddBytes(if b then 4 else 5);
      case NegativeZero => ok := AddBytes(1);
      case Num(numeral) => ok := AddBytes(|numeral|);
      case Wild => return false;
      case Str(s) => ok := AddStringBytes(s, true);
      case Arr(elements) =>
        if |elements| > MAX_JSON_CONTAINER_ITEMS { return false; }
        ok := AddArrayBytes(v, depth);
      case Obj(fields) =>
        if |fields| > MAX_JSON_CONTAINER_ITEMS { return false; }
        ok := AddObjectBytes(v, depth);
    }

    method AddArrayBytes(v: Json, depth: nat) returns (ok: bool)
      requires v.Arr? && |v.items| <= MAX_JSON_CONTAINER_ITEMS && depth <= MAX_JSON_DEPTH && Within()
      requires items > 0 && Numerals(v)
      modifies this
      ensures ok <==> GuardFits(v, depth, old(items) - 1, old(stringBytes), old(encodedBytes), exclusiveLimit)
      ensures ok ==> Within() && items == old(items) + Items(v) - 1 && stringBytes == old(stringBytes) + StringBytes(v)
                     && encodedBytes == old(encodedBytes) + JsonBytes(v)
      decreases v, 0
    {
      hide JsonText, Items, StringBytes, Shaped, ItemsAll, StringBytesAll, ItemsText, Numerals, GuardFits, JsonBytes,
        JsonBytesAll;
      var elements := v.items;
      GuardArray(v, depth);
      ok := AddBytes(2 + Separators(|elements|));
      if !ok { return; }
      var index := 0;
      while index < |elements|
        invariant 0 <= index <= |elements| && Within()
        invariant items == old(items) + ItemsAll(elements[..index])
        invariant stringBytes == old(stringBytes) + StringBytesAll(elements[..index])
        invariant encodedBytes == old(encodedBytes) + 2 + Separators(|elements|) + JsonBytesAll(elements[..index])
        invariant forall i :: 0 <= i < index ==> Shaped(elements[i], depth + 1)
      {
        ItemsPrefix(elements, index);
        JsonPrefix(elements, index);
        ArrayChild(v, index);
        GuardMeans(elements[index], depth + 1, items, stringBytes, encodedBytes, exclusiveLimit);
        ok := AddValueBytes(elements[index], depth + 1);
        if !ok { return; }
        index := index + 1;
      }
      assert elements[..|elements|] == elements;
      return true;
    }

    method AddObjectBytes(v: Json, depth: nat) returns (ok: bool)
      requires v.Obj? && |v.fields| <= MAX_JSON_CONTAINER_ITEMS && depth <= MAX_JSON_DEPTH && Within()
      requires items > 0 && Numerals(v)
      modifies this
      ensures ok <==> GuardFits(v, depth, old(items) - 1, old(stringBytes), old(encodedBytes), exclusiveLimit)
      ensures ok ==> Within() && items == old(items) + Items(v) - 1 && stringBytes == old(stringBytes) + StringBytes(v)
                     && encodedBytes == old(encodedBytes) + JsonBytes(v)
      decreases v, 0
    {
      hide JsonText, Items, StringBytes, Shaped, ItemsFields, StringBytesFields, FieldsText, Numerals, GuardFits,
        JsonBytes, FieldBytesAll, FieldBytes, StringText, Encode;
      var fields := v.fields;
      GuardObject(v, depth);
      ok := AddBytes(2 + Separators(|fields|) + |fields|);
      if !ok { return; }
      var index := 0;
      while index < |fields|
        invariant 0 <= index <= |fields| && Within()
        invariant items == old(items) + ItemsFields(fields[..index])
        invariant stringBytes == old(stringBytes) + StringBytesFields(fields[..index])
        invariant encodedBytes ==
          old(encodedBytes) + 2 + Separators(|fields|) + FieldBytesAll(fields[..index]) + |fields| - index
        invariant forall i :: 0 <= i < index ==> Shaped(fields[i].value, depth + 1)
      {
        FieldsPrefix(fields, index);
        FieldPrefix(fields, index);
        FieldBytesRest(fields, index);
        FieldMeans(fields[index]);
        ObjectChild(v, index);
        ok := AddStringBytes(fields[index].key, false);
        if !ok { return; }
        GuardMeans(fields[index].value, depth + 1, items, stringBytes, encodedBytes, exclusiveLimit);
        ok := AddValueBytes(fields[index].value, depth + 1);
        if !ok { return; }
        index := index + 1;
      }
      assert fields[..|fields|] == fields;
      return true;
    }
  }

  lemma FieldMeans(f: Field)
    ensures FieldBytes(f) == |Encode(StringText(f.key))| + 1 + JsonBytes(f.value)
  {
  }

  /** The separators counted ahead stay below what is still to come. */
  lemma {:induction false} FieldBytesRest(fields: seq<Field>, i: nat)
    requires i < |fields|
    ensures FieldBytesAll(fields[..i + 1]) + |fields| - (i + 1) <= FieldBytesAll(fields)
    decreases |fields|
  {
    hide FieldBytes;
    var last := |fields| - 1;
    FieldPrefix(fields, last);
    assert fields[..last + 1] == fields;
    FieldMeans(fields[last]);
    if i < last {
      FieldBytesRest(fields[..last], i);
      assert fields[..last][..i + 1] == fields[..i + 1];
    }
  }

  lemma GuardMeans(v: Json, depth: nat, items: nat, stringBytes: nat, encoded: nat, limit: nat)
    ensures GuardFits(v, depth, items, stringBytes, encoded, limit) <==>
              && Shaped(v, depth) && items + Items(v) <= MAX_JSON_ITEMS
              && stringBytes + StringBytes(v) <= GUARD_STRING_BYTES && encoded + JsonBytes(v) < limit
  {
  }

  lemma GuardArray(v: Json, depth: nat)
    requires v.Arr? && |v.items| <= MAX_JSON_CONTAINER_ITEMS && depth <= MAX_JSON_DEPTH
    ensures forall i: nat, s: nat, e: nat, l: nat :: GuardFits(v, depth, i, s, e, l) <==>
              && (forall j :: 0 <= j < |v.items| ==> Shaped(v.items[j], depth + 1))
              && i + 1 + ItemsAll(v.items) <= MAX_JSON_ITEMS && s + StringBytesAll(v.items) <= GUARD_STRING_BYTES
              && e + 2 + Separators(|v.items|) + JsonBytesAll(v.items) < l
    ensures Items(v) == 1 + ItemsAll(v.items) && StringBytes(v) == StringBytesAll(v.items)
    ensures JsonBytes(v) == 2 + Separators(|v.items|) + JsonBytesAll(v.items)
    ensures ItemsAll(v.items[..0]) == 0 && StringBytesAll(v.items[..0]) == 0 && JsonBytesAll(v.items[..0]) == 0
  {
  }

  lemma GuardObject(v: Json, depth: nat)
    requires v.Obj? && |v.fields| <= MAX_JSON_CONTAINER_ITEMS && depth <= MAX_JSON_DEPTH
    ensures forall i: nat, s: nat, e: nat, l: nat :: GuardFits(v, depth, i, s, e, l) <==>
              && (forall j :: 0 <= j < |v.fields| ==> Shaped(v.fields[j].value, depth + 1))
              && i + 1 + ItemsFields(v.fields) <= MAX_JSON_ITEMS
              && s + StringBytesFields(v.fields) <= GUARD_STRING_BYTES
              && e + 2 + Separators(|v.fields|) + FieldBytesAll(v.fields) < l
    ensures Items(v) == 1 + ItemsFields(v.fields) && StringBytes(v) == StringBytesFields(v.fields)
    ensures JsonBytes(v) == 2 + Separators(|v.fields|) + FieldBytesAll(v.fields)
    ensures ItemsFields(v.fields[..0]) == 0 && StringBytesFields(v.fields[..0]) == 0
    ensures FieldBytesAll(v.fields[..0]) == 0
    ensures FieldBytesAll(v.fields) >= |v.fields|
  {
    if v.fields != [] { FieldBytesRest(v.fields, 0); FieldPrefix(v.fields, 0); FieldMeans(v.fields[0]); }
  }

  method IsBoundedJson(v: Json, exclusiveLimit: nat) returns (ok: bool)
    requires exclusiveLimit > 0 && Numerals(v)
    ensures ok <==> Shaped(v, 0) && Items(v) <= MAX_JSON_ITEMS && StringBytes(v) <= GUARD_STRING_BYTES
                    && |Encode(JsonText(v))| < exclusiveLimit
  {
    var counter := new JsonValidation(exclusiveLimit);
    JsonBytesExact(v);
    ok := counter.AddValueBytes(v, 0);
  }

  // ---------------------------------------------------------------- the counters agree

  lemma {:induction false} StringsWithin(v: Json)
    ensures StringBytes(v) <= JsonBytes(v)
    decreases v
  {
    match v
    case Str(s) => QuotedWhole(s); EscapeLonger(s);
    case Arr(items) => StringsWithinAll(items);
    case Obj(fields) => StringsWithinFields(fields);
    case _ =>
  }

  lemma {:induction false} EscapeLonger(s: Text)
    ensures |Encode(s)| <= |Encode(Escape(s))|
  {
    if s == [] {
    } else if PairAt(s, 0) {
      EscapeLonger(s[2..]);
      assert Escape(s)[2..] == Escape(s[2..]);
    } else {
      EscapeLonger(s[1..]);
      QuotedStep(s, 0);
      EscapeStart(s[1..]);
      if Plain(s, 0) {
        assert Escape(s)[1..] == Escape(s[1..]);
      } else {
        AsciiEncode(EscapeUnit(s[0]));
        EncodeConcat(EscapeUnit(s[0]), Escape(s[1..]));
      }
    }
  }

  lemma {:induction false} StringsWithinAll(items: seq<Json>)
    ensures StringBytesAll(items) <= JsonBytesAll(items)
    decreases items
  {
    if items != [] { StringsWithin(items[0]); StringsWithinAll(items[1..]); }
  }

  lemma {:induction false} StringsWithinFields(fields: seq<Field>)
    ensures StringBytesFields(fields) <= FieldBytesAll(fields)
    decreases fields
  {
    if fields != [] { StringsWithin(fields[0].value); StringsWithinFields(fields[1..]); }
  }

  /** Below the string ceiling of the guard, the guard takes inline exactly the roots that the codec admits
      and measures below the threshold. */
  lemma InlineAgrees(v: Json, threshold: nat)
    requires Numerals(v) && threshold <= GUARD_STRING_BYTES
    ensures (Admitted(v) && |Encode(JsonText(v))| < threshold) <==> GuardFits(v, 0, 0, 0, 0, threshold)
  {
    JsonBytesExact(v);
    StringsWithin(v);
  }
}
