/** The analyzer's own traversal: it counts a product frame byte by byte, against a limit. */
module CanonicalCounter {
  import opened Prelude
  import opened Utf8
  import opened Json
  import opened BoundedUtf8Codec
  import opened JsonCounters
  import opened SessionSchema
  import opened SessionWalk
  import opened ContentProducts

  const MAX_SAFE_LENGTH: nat := 9007199254740991

  /** `Number.isSafeInteger(ref.byteLength) && ref.byteLength > 0`. */
  predicate HasLength(v: Json) {
    && Member(v, "ref").Some? && Member(v, "ref").value.Obj?
    && Member(Member(v, "ref").value, "byteLength").Some?
    && Member(Member(v, "ref").value, "byteLength").value.Num?
    && var t := Member(Member(v, "ref").value, "byteLength").value.numeral;
       DigitRun(t) == |t| && 0 < DecimalValue(t) <= MAX_SAFE_LENGTH
  }

  lemma MemberSmaller(v: Json, key: string)
    requires Member(v, key).Some?
    ensures Member(v, key).value < v
  {
    var n := GetPlace(v.fields, key);
    FieldSmaller(v, n);
  }

  /** The values the traversal does not refuse as invalid. */
  predicate Countable(schema: Schema, v: Json)
    decreases v
  {
    if schema == TextRoot then v.Str? || (IsKind(v, "external_text") && HasLength(v))
    else if schema == JsonRoot then
      if IsKind(v, "inline_json") && Member(v, "value").Some? then
        MemberSmaller(v, "value");
        Countable(Ordinary, Member(v, "value").value)
      else IsKind(v, "external_json") && HasLength(v)
    else
      match v
      case Wild => false
      case Arr(items) => forall i :: 0 <= i < |items| ==> Countable(ItemSchema(schema), items[i])
      case Obj(fields) =>
        forall i :: 0 <= i < |fields| ==> Countable(ChildSchema(schema, fields, fields[i].key), fields[i].value)
      case _ => true
  }

  // ---------------------------------------------------------------- sizes of containers

  lemma OrdinarySize(v: Json, sizes: RootSizes)
    ensures Size(Ordinary, v, sizes) == JsonBytes(v)
  {
  }

  lemma {:induction false} OrdinaryItems(items: seq<Json>, sizes: RootSizes)
    ensures SizeItems(Ordinary, items, sizes) == JsonBytesAll(items)
    decreases items
  {
    if items != [] { OrdinaryItems(items[1..], sizes); }
  }

  lemma OrdinaryField(schema: Schema, all: seq<Field>, f: Field, sizes: RootSizes)
    requires ChildSchema(schema, all, f.key) == Ordinary
    ensures SizeField(schema, all, f, sizes) == FieldBytes(f)
  {
    hide ChildSchema, StringText, Encode, Size, JsonBytes;
    OrdinarySize(f.value, sizes);
  }

  /** Fields whose schemas are all ordinary are charged their canonical JSON. */
  lemma {:induction false} OrdinaryFields(schema: Schema, all: seq<Field>, fields: seq<Field>, sizes: RootSizes)
    requires forall i :: 0 <= i < |fields| ==> ChildSchema(schema, all, fields[i].key) == Ordinary
    ensures SizeFields(schema, all, fields, sizes) == FieldBytesAll(fields)
    decreases fields
  {
    hide ChildSchema, SizeField, FieldBytes;
    if fields != [] {
      OrdinaryField(schema, all, fields[0], sizes);
      OrdinaryFields(schema, all, fields[1..], sizes);
    }
  }

  /** The children of an image block are ordinary, and so are those of an ordinary value. */
  lemma OrdinaryChildren(schema: Schema, fields: seq<Field>, key: Text)
    requires schema == Ordinary || IsImage(schema, Obj(fields))
    ensures ChildSchema(schema, fields, key) == Ordinary
  {
    hide Word;
    WordsDiffer("image", "text", 0);
  }

  lemma ArraySize(schema: Schema, items: seq<Json>, sizes: RootSizes)
    requires schema != TextRoot && schema != JsonRoot
    ensures Size(schema, Arr(items), sizes) == 2 + Separators(|items|) + SizeItems(ItemSchema(schema), items, sizes)
  {
    if schema == Ordinary { OrdinaryItems(items, sizes); }
  }

  lemma ObjectSize(schema: Schema, fields: seq<Field>)
    requires schema != TextRoot && schema != JsonRoot
    ensures Size(schema, Obj(fields), LogicalSizes()) ==
      2 + Separators(|fields|) + SizeFields(schema, fields, fields, LogicalSizes())
  {
    hide ChildSchema, Word, Get;
    if schema == Ordinary || IsImage(schema, Obj(fields)) {
      forall i | 0 <= i < |fields|
        ensures ChildSchema(schema, fields, fields[i].key) == Ordinary
      {
        OrdinaryChildren(schema, fields, fields[i].key);
      }
      OrdinaryFields(schema, fields, fields, LogicalSizes());
    }
  }

  /** The commas still to come before element `index` of `count`, its own included. */
  function Commas(count: nat, index: nat): nat {
    if index == 0 then Separators(count) else if index <= count then count - index else 0
  }

  lemma CommaStep(count: nat, index: nat)
    requires index <= count
    ensures index < count ==> Commas(count, index) == Commas(count, index + 1) + if index > 0 then 1 else 0
    ensures Commas(count, 0) == Separators(count) && Commas(count, count) == 0
  {
  }

  lemma ItemsStep(schema: Schema, items: seq<Json>, index: nat)
    requires index <= |items|
    ensures SizeItems(schema, items[index..], LogicalSizes()) ==
      if index == |items| then 0
      else Size(schema, items[index], LogicalSizes()) + SizeItems(schema, items[index + 1..], LogicalSizes())
  {
    hide Size, LogicalSizes;
    if index < |items| { assert items[index..][0] == items[index] && items[index..][1..] == items[index + 1..]; }
  }

  lemma FieldsStep(schema: Schema, fields: seq<Field>, index: nat)
    requires index <= |fields|
    ensures SizeFields(schema, fields, fields[index..], LogicalSizes()) ==
      if index == |fields| then 0
      else
        |Encode(StringText(fields[index].key))| + 1
        + Size(ChildSchema(schema, fields, fields[index].key), fields[index].value, LogicalSizes())
        + SizeFields(schema, fields, fields[index + 1..], LogicalSizes())
  {
    hide Size, LogicalSizes, ChildSchema, Encode, StringText;
    if index < |fields| { assert fields[index..][0] == fields[index] && fields[index..][1..] == fields[index + 1..]; }
  }

  lemma CountableArray(schema: Schema, v: Json)
    requires v.Arr? && schema != TextRoot && schema != JsonRoot
    ensures Countable(schema, v) <==> forall i :: 0 <= i < |v.items| ==> Countable(ItemSchema(schema), v.items[i])
  {
    hide ItemSchema;
  }

  lemma CountableObject(schema: Schema, v: Json)
    requires v.Obj? && schema != TextRoot && schema != JsonRoot
    ensures Countable(schema, v) <==>
      forall i :: 0 <= i < |v.fields| ==> Countable(ChildSchema(schema, v.fields, v.fields[i].key), v.fields[i].value)
  {
    hide ChildSchema;
  }

  lemma ScalarSize(schema: Schema, v: Json)
    requires schema != TextRoot && schema != JsonRoot && !v.Arr? && !v.Obj?
    ensures Size(schema, v, LogicalSizes()) == JsonBytes(v)
  {
    hide JsonBytes, ChildSchema, ItemSchema, Is;
  }

  lemma ScalarCounts(schema: Schema, v: Json)
    requires schema != TextRoot && schema != JsonRoot && !v.Arr? && !v.Obj?
    ensures Countable(schema, v) <==> !v.Wild?
  {
    hide ChildSchema, ItemSchema;
  }

  lemma ScalarBytes(v: Json)
    ensures v.Null? || (v.Bool? && v.b) ==> JsonBytes(v) == 4
    ensures v.Bool? && !v.b ==> JsonBytes(v) == 5
    ensures v.NegativeZero? ==> JsonBytes(v) == 1
    ensures v.Num? ==> JsonBytes(v) == |v.numeral|
    ensures v.Str? ==> JsonBytes(v) == |Encode(StringText(v.s))|
  {
    hide Encode, StringText;
  }

  lemma RootSize(v: Json)
    ensures Size(TextRoot, v, LogicalSizes()) == TextRootBytes(v)
    ensures Size(JsonRoot, v, LogicalSizes()) == JsonRootBytes(v)
  {
  }

  // ---------------------------------------------------------------- the traversal

  /** `countTextRoot`. */
  method CountTextRoot(counter: LogicalByteCounter, v: Json) returns (ok: bool)
    requires counter.bytes <= counter.limit
    modifies counter
    ensures counter.bytes <= counter.limit
    ensures ok <==> Countable(TextRoot, v) && old(counter.bytes) + TextRootBytes(v) <= counter.limit
    ensures ok ==> counter.bytes == old(counter.bytes) + TextRootBytes(v)
  {
    hide Encode, DecimalValue, DigitRun;
    if v.Str? {
      ok := counter.CountRawUtf8(v.s);
      return;
    }
    if !IsKind(v, "external_text") || !HasLength(v) { return false; }
    ok := counter.Add(DecimalValue(Member(Member(v, "ref").value, "byteLength").value.numeral));
  }

  /** `countJsonRoot`. */
  method CountJsonRoot(counter: LogicalByteCounter, v: Json) returns (ok: bool)
    requires counter.bytes <= counter.limit
    modifies counter
    ensures counter.bytes <= counter.limit
    ensures ok <==> Countable(JsonRoot, v) && old(counter.bytes) + JsonRootBytes(v) <= counter.limit
    ensures ok ==> counter.bytes == old(counter.bytes) + JsonRootBytes(v)
    decreases v, 1
  {
    hide JsonBytes, Encode, DecimalValue, DigitRun, Get, Word;
    if IsKind(v, "inline_json") && Member(v, "value").Some? {
      MemberSmaller(v, "value");
      OrdinarySize(Member(v, "value").value, LogicalSizes());
      ok := CountCanonical(counter, Ordinary, Member(v, "value").value);
      return;
    }
    if !IsKind(v, "external_json") || !HasLength(v) { return false; }
    ok := counter.Add(DecimalValue(Member(Member(v, "ref").value, "byteLength").value.numeral));
  }

  /** `countCanonical`: the whole size if it fits and the value is valid, else refusal. */
  method CountCanonical(counter: LogicalByteCounter, schema: Schema, v: Json) returns (ok: bool)
    requires counter.bytes <= counter.limit
    modifies counter
    ensures counter.bytes <= counter.limit
    ensures ok <==> Countable(schema, v) && old(counter.bytes) + Size(schema, v, LogicalSizes()) <= counter.limit
    ensures ok ==> counter.bytes == old(counter.bytes) + Size(schema, v, LogicalSizes())
    decreases v, 2
  {
    hide *;
    if schema == TextRoot {
      RootSize(v);
      ok := CountTextRoot(counter, v);
      return;
    }
    if schema == JsonRoot {
      RootSize(v);
      ok := CountJsonRoot(counter, v);
      return;
    }
    if !v.Arr? && !v.Obj? {
      ScalarSize(schema, v);
      ScalarCounts(schema, v);
      ScalarBytes(v);
    }
    match v
    case Null => ok := counter.Add(4);
    case Bool(b) => ok := counter.Add(if b then 4 else 5);
    case NegativeZero => ok := counter.Add(1);
    case Num(numeral) => ok := counter.Add(|numeral|);
    case Wild => return false;
    case Str(s) => ok := counter.CountJsonString(s);
    case Arr(_) => ok := CountArray(counter, schema, v);
    case Obj(_) => ok := CountObject(counter, schema, v);
  }

  method CountArray(counter: LogicalByteCounter, schema: Schema, v: Json) returns (ok: bool)
    requires v.Arr? && schema != TextRoot && schema != JsonRoot && counter.bytes <= counter.limit
    modifies counter
    ensures counter.bytes <= counter.limit
    ensures ok <==> Countable(schema, v) && old(counter.bytes) + Size(schema, v, LogicalSizes()) <= counter.limit
    ensures ok ==> counter.bytes == old(counter.bytes) + Size(schema, v, LogicalSizes())
    decreases v, 0
  {
    hide *;
    var items, child := v.items, ItemSchema(schema);
    ghost var total := old(counter.bytes) + Size(schema, v, LogicalSizes());
    ArraySize(schema, items, LogicalSizes());
    CountableArray(schema, v);
    ok := counter.Add(1);
    if !ok { return; }
    var index := 0;
    assert items[0..] == items;
    CommaStep(|items|, 0);
    while index < |items|
      invariant 0 <= index <= |items| && counter.bytes <= counter.limit
      invariant counter.bytes + SizeItems(child, items[index..], LogicalSizes()) + Commas(|items|, index) + 1 == total
      invariant forall i :: 0 <= i < index ==> Countable(child, items[i])
    {
      CommaStep(|items|, index);
      ItemsStep(child, items, index);
      if index > 0 {
        ok := counter.Add(1);
        if !ok { return; }
      }
      ok := CountCanonical(counter, child, items[index]);
      if !ok { return; }
      index := index + 1;
    }
    ItemsStep(child, items, |items|);
    CommaStep(|items|, |items|);
    ok := counter.Add(1);
  }

  method CountObject(counter: LogicalByteCounter, schema: Schema, v: Json) returns (ok: bool)
    requires v.Obj? && schema != TextRoot && schema != JsonRoot && counter.bytes <= counter.limit
    modifies counter
    ensures counter.bytes <= counter.limit
    ensures ok <==> Countable(schema, v) && old(counter.bytes) + Size(schema, v, LogicalSizes()) <= counter.limit
    ensures ok ==> counter.bytes == old(counter.bytes) + Size(schema, v, LogicalSizes())
    decreases v, 0
  {
    hide *;
    var fields := v.fields;
    ghost var total := old(counter.bytes) + Size(schema, v, LogicalSizes());
    ObjectSize(schema, fields);
    CountableObject(schema, v);
    ok := counter.Add(1);
    if !ok { return; }
    var index := 0;
    assert fields[0..] == fields;
    CommaStep(|fields|, 0);
    while index < |fields|
      invariant 0 <= index <= |fields| && counter.bytes <= counter.limit
      invariant counter.bytes + SizeFields(schema, fields, fields[index..], LogicalSizes()) +
        Commas(|fields|, index) + 1 ==
        total
      invariant forall i :: 0 <= i < index ==> Countable(ChildSchema(schema, fields, fields[i].key), fields[i].value)
    {
      CommaStep(|fields|, index);
      FieldsStep(schema, fields, index);
      FieldSmaller(v, index);
      if index > 0 {
        ok := counter.Add(1);
        if !ok { return; }
      }
      ok := counter.CountJsonString(fields[index].key);
      if !ok { return; }
      ok := counter.Add(1);
      if !ok { return; }
      ok := CountCanonical(counter, ChildSchema(schema, fields, fields[index].key), fields[index].value);
      if !ok { return; }
      index := index + 1;
    }
    FieldsStep(schema, fields, |fields|);
    CommaStep(|fields|, |fields|);
    ok := counter.Add(1);
  }

  /** `analyze`: the size of a valid frame that is neither empty nor over the limit. */
  method Analyze(schema: Schema, v: Json, maxBytes: int) returns (r: Option<nat>)
    ensures r.Some? <==>
      0 < maxBytes < MAX_SAFE_LENGTH && Countable(schema, v) && 0 < Size(schema, v, LogicalSizes()) <= maxBytes
    ensures r.Some? ==> r.value == Size(schema, v, LogicalSizes())
  {
    hide *;
    if maxBytes <= 0 || maxBytes > MAX_SAFE_LENGTH - 1 { return None; }
    var counter := new LogicalByteCounter(maxBytes);
    var ok := CountCanonical(counter, schema, v);
    if !ok || counter.bytes == 0 { return None; }
    return Some(counter.bytes);
  }

  // ---------------------------------------------------------------- three counters, one size

  lemma {:induction false} ShapedCounts(v: Json, depth: nat)
    requires Shaped(v, depth)
    ensures Countable(Ordinary, v)
    decreases v
  {
    match v
    case Arr(items) =>
      forall i | 0 <= i < |items| ensures Countable(Ordinary, items[i]) { ShapedCounts(items[i], depth + 1); }
    case Obj(fields) =>
      forall i | 0 <= i < |fields| ensures Countable(Ordinary, fields[i].value) {
        FieldSmaller(v, i);
        ShapedCounts(fields[i].value, depth + 1);
      }
    case _ =>
  }

  /** On a root that the codec admits, the codec's bytes, the guard's running count and the analyzer's own
      traversal all measure the same, so that they draw the line between inline and external at one place. */
  lemma CountersAgree(v: Json, threshold: nat)
    requires Numerals(v) && Admitted(v) && threshold <= GUARD_STRING_BYTES
    ensures Countable(Ordinary, v) && Size(Ordinary, v, LogicalSizes()) == |Encode(JsonText(v))|
    ensures GuardFits(v, 0, 0, 0, 0, threshold) <==> |Encode(JsonText(v))| < threshold
    ensures GuardFits(v, 0, 0, 0, 0, threshold) <==> Size(Ordinary, v, LogicalSizes()) < threshold
  {
    hide GuardFits, Encode, JsonText, JsonBytes, Numerals, Countable, Size;
    ShapedCounts(v, 0);
    OrdinarySize(v, LogicalSizes());
    JsonBytesExact(v);
    InlineAgrees(v, threshold);
  }
}
