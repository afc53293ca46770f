/** What a root becomes on the wire, how it is read back, and what the size analyzer and the product guard
    make of it. */
module ContentProducts {
  import opened Prelude
  import opened Utf8
  import opened Json
  import opened BoundedUtf8Codec
  import opened JsonCounters
  import opened Base64
  import opened SessionSchema
  import opened SessionWalk

  // ---------------------------------------------------------------- numbers and references

  function Decimal(n: nat): (t: Text)
    ensures t != []
  {
    if n < 10 then [0x30 + n] else Decimal(n / 10) + [0x30 + n % 10]
  }

  function DecimalValue(t: Text): nat {
    if t == [] then 0
    else
      var last := t[|t| - 1];
      DecimalValue(t[..|t| - 1]) * 10 + if 0x30 <= last <= 0x39 then last - 0x30 else 0
  }

  lemma {:induction false} DecimalRoundTrip(n: nat)
    ensures DecimalValue(Decimal(n)) == n
  {
    if n < 10 {
      assert [0x30 + n][..0] == [];
    } else {
      DecimalRoundTrip(n / 10);
      assert Decimal(n)[..|Decimal(n)| - 1] == Decimal(n / 10);
    }
  }

  /** The digest is idealized as an injective function. */
  datatype Epoch = Epoch(name: Text, sha: seq<Byte> -> Text)

  datatype Env = Env(epoch: Epoch, threshold: nat)

  ghost predicate Injective(sha: seq<Byte> -> Text) { forall a, b :: sha(a) == sha(b) ==> a == b }

  function FieldOf(name: string, v: Json): Field { Field(Word(name), v) }

  function ContentRefJson(env: Env, bytes: seq<Byte>): Json {
    Obj([FieldOf("type", Str(Word("content_ref"))), FieldOf("serverEpoch", Str(env.epoch.name)),
         FieldOf("sha256", Str(env.epoch.sha(bytes))),
         FieldOf("byteLength", Num(Decimal(|bytes|))), FieldOf("encoding", Str(Word("utf-8")))])
  }

  function AttachmentRefJson(epoch: Epoch, bytes: seq<Byte>, mimeType: Json): Json {
    Obj([FieldOf("type", Str(Word("attachment_ref"))), FieldOf("serverEpoch", Str(epoch.name)),
         FieldOf("sha256", Str(epoch.sha(bytes))),
         FieldOf("mediaType", mimeType), FieldOf("byteLength", Num(Decimal(|bytes|)))])
  }

  function Wrapped(kind: string, name: string, v: Json): Json {
    Obj([FieldOf("type", Str(Word(kind))), FieldOf(name, v)])
  }

  /** `record[key]` of a record that may be anything. */
  function Member(v: Json, key: string): Option<Json> { if v.Obj? then Get(v.fields, key) else None }

  predicate IsKind(v: Json, kind: string) { Member(v, "type") == Some(Str(Word(kind))) }

  /** A key is looked up to the first field that has it. */
  lemma {:induction false} GetAt(fields: seq<Field>, key: string, n: nat)
    requires n < |fields| && fields[n].key == Word(key)
    requires forall j :: 0 <= j < n ==> fields[j].key != Word(key)
    ensures Get(fields, key) == Some(fields[n].value)
  {
    hide Word;
    if n > 0 { GetAt(fields[1..], key, n - 1); }
  }

  lemma RefDigest(env: Env, bytes: seq<Byte>)
    ensures Member(ContentRefJson(env, bytes), "sha256") == Some(Str(env.epoch.sha(bytes)))
  {
    hide Word, Get, Decimal;
    WordsDiffer("type", "sha256", 0);
    WordsDiffer("serverEpoch", "sha256", 0);
    GetAt(ContentRefJson(env, bytes).fields, "sha256", 2);
  }

  lemma RefLength(env: Env, bytes: seq<Byte>)
    ensures Member(ContentRefJson(env, bytes), "byteLength") == Some(Num(Decimal(|bytes|)))
  {
    hide Word, Get, Decimal;
    WordsDiffer("type", "byteLength", 0);
    WordsDiffer("serverEpoch", "byteLength", 0);
    WordsDiffer("sha256", "byteLength", 0);
    GetAt(ContentRefJson(env, bytes).fields, "byteLength", 3);
  }

  lemma RefMembers(env: Env, bytes: seq<Byte>)
    ensures Member(ContentRefJson(env, bytes), "sha256") == Some(Str(env.epoch.sha(bytes)))
    ensures Member(ContentRefJson(env, bytes), "byteLength") == Some(Num(Decimal(|bytes|)))
  {
    hide *;
    RefDigest(env, bytes);
    RefLength(env, bytes);
  }

  lemma AttachmentMembers(epoch: Epoch, bytes: seq<Byte>, mimeType: Json)
    ensures Member(AttachmentRefJson(epoch, bytes, mimeType), "sha256") == Some(Str(epoch.sha(bytes)))
  {
    hide Word, Get;
    var fields := AttachmentRefJson(epoch, bytes, mimeType).fields;
    WordsDiffer("type", "sha256", 0);
    WordsDiffer("serverEpoch", "sha256", 0);
    GetAt(fields, "sha256", 2);
  }

  lemma WrappedMembers(kind: string, name: string, v: Json)
    requires name == "ref" || name == "value"
    ensures Member(Wrapped(kind, name, v), "type") == Some(Str(Word(kind)))
    ensures Member(Wrapped(kind, name, v), name) == Some(v)
  {
    hide Word;
    var fields := Wrapped(kind, name, v).fields;
    WordsDiffer("type", "ref", 0);
    WordsDiffer("type", "value", 0);
    assert fields[1..] == [FieldOf(name, v)];
    assert Get(fields[1..], name) == Some(v);
  }

  // ---------------------------------------------------------------- products

  function TextProduct(env: Env, v: Json): Json {
    if !v.Str? then v
    else
      var bytes := Encode(v.s);
      if |bytes| < env.threshold then v else Wrapped("external_text", "ref", ContentRefJson(env, bytes))
  }

  function JsonProduct(env: Env, v: Json): Json {
    var bytes := Encode(JsonText(v));
    if |bytes| < env.threshold then Wrapped("inline_json", "value", v)
    else Wrapped("external_json", "ref", ContentRefJson(env, bytes))
  }

  /** An image block as it is rebuilt: these three fields, in this order. */
  function ImageBlock(data: Json, mimeType: Json): Json {
    Obj([FieldOf("type", Str(Word("image"))), FieldOf("data", data), FieldOf("mimeType", mimeType)])
  }

  /** An image block as the raw guard lets it through: exactly these fields, in any order. */
  predicate RawImage(v: Json) {
    && v.Obj? && |v.fields| == 3
    && IsKind(v, "image")
    && Member(v, "data").Some? && Member(v, "data").value.Str? && CanonicalLength(Member(v, "data").value.s).Some?
    && Member(v, "mimeType").Some? && Member(v, "mimeType").value.Str?
  }

  function ImageData(v: Json): Text
    requires RawImage(v)
  {
    Member(v, "data").value.s
  }

  function ImageProduct(epoch: Epoch, v: Json): Json {
    if !RawImage(v) then v
    else
      var mimeType := Member(v, "mimeType").value;
      ImageBlock(AttachmentRefJson(epoch, Decode64(ImageData(v)), mimeType), mimeType)
  }

  /** The block with its fields in the order in which it is rebuilt. */
  function Ordered(v: Json): Json {
    if !RawImage(v) then v else ImageBlock(Member(v, "data").value, Member(v, "mimeType").value)
  }

  function Products(env: Env): Leaves {
    Leaves(v => TextProduct(env, v), v => JsonProduct(env, v), v => ImageProduct(env.epoch, v))
  }

  // ---------------------------------------------------------------- reading back

  /** Content by digest, as the store serves it: two namespaces. */
  datatype Blobs = Blobs(utf8: map<Text, seq<Byte>>, attachments: map<Text, seq<Byte>>)

  ghost predicate Faithful(env: Env, blobs: Blobs) {
    && (forall d :: d in blobs.utf8 ==> env.epoch.sha(blobs.utf8[d]) == d)
    && (forall d :: d in blobs.attachments ==> env.epoch.sha(blobs.attachments[d]) == d)
  }

  function BlobOf(contents: map<Text, seq<Byte>>, ref: Option<Json>): Option<seq<Byte>> {
    if ref.None? then None
    else
      match Member(ref.value, "sha256")
      case Some(Str(digest)) => if digest in contents then Some(contents[digest]) else None
      case _ => None
  }

  function HydrateText(blobs: Blobs, v: Json): Json {
    if !IsKind(v, "external_text") then v
    else
      match BlobOf(blobs.utf8, Member(v, "ref"))
      case None => v
      case Some(bytes) => match Decode(bytes) case None => v case Some(s) => Str(s)
  }

  function HydrateJson(blobs: Blobs, v: Json): Json {
    if IsKind(v, "inline_json") && Member(v, "value").Some? then Member(v, "value").value
    else if !IsKind(v, "external_json") then v
    else
      match BlobOf(blobs.utf8, Member(v, "ref"))
      case None => v
      case Some(bytes) =>
        match Decode(bytes)
        case None => v
        case Some(s) => match Parse(s) case None => v case Some(value) => value
  }

  function HydrateImage(blobs: Blobs, v: Json): Json {
    if Member(v, "mimeType").None? then v
    else
      match BlobOf(blobs.attachments, Member(v, "data"))
      case None => v
      case Some(bytes) => ImageBlock(Str(Encode64(bytes)), Member(v, "mimeType").value)
  }

  function Hydration(blobs: Blobs): Leaves {
    Leaves(v => HydrateText(blobs, v), v => HydrateJson(blobs, v), v => HydrateImage(blobs, v))
  }

  /** The content that a root needs is in the store. */
  predicate TextStored(env: Env, blobs: Blobs, v: Json) {
    v.Str? && (|Encode(v.s)| >= env.threshold ==> env.epoch.sha(Encode(v.s)) in blobs.utf8)
  }

  predicate JsonStored(env: Env, blobs: Blobs, v: Json) {
    Valid(v) && (|Encode(JsonText(v))| >= env.threshold ==> env.epoch.sha(Encode(JsonText(v))) in blobs.utf8)
  }

  predicate ImageStored(env: Env, blobs: Blobs, v: Json) {
    RawImage(v) && env.epoch.sha(Decode64(ImageData(v))) in blobs.attachments
  }

  lemma StoredBytes(env: Env, contents: map<Text, seq<Byte>>, bytes: seq<Byte>)
    requires Injective(env.epoch.sha) && env.epoch.sha(bytes) in contents
    requires forall d :: d in contents ==> env.epoch.sha(contents[d]) == d
    ensures contents[env.epoch.sha(bytes)] == bytes
  {
  }

  lemma StoredContent(env: Env, contents: map<Text, seq<Byte>>, bytes: seq<Byte>)
    requires Injective(env.epoch.sha) && env.epoch.sha(bytes) in contents
    requires forall d :: d in contents ==> env.epoch.sha(contents[d]) == d
    ensures BlobOf(contents, Some(ContentRefJson(env, bytes))) == Some(bytes)
  {
    hide Member;
    RefMembers(env, bytes);
  }

  /** A text root comes back exactly when it stayed inline or has no unpaired surrogate. */
  lemma TextComesBack(env: Env, blobs: Blobs, v: Json)
    requires Injective(env.epoch.sha) && Faithful(env, blobs) && TextStored(env, blobs, v)
    ensures HydrateText(blobs, TextProduct(env, v)) == v <==> |Encode(v.s)| < env.threshold || WellFormed(v.s)
    ensures HydrateText(blobs, TextProduct(env, v)) == if |Encode(v.s)| < env.threshold then v else Str(Replaced(v.s))
  {
    hide Encode, Decode, WellFormed, ContentRefJson, Wrapped, BlobOf, Injective;
    var bytes := Encode(v.s);
    if |bytes| >= env.threshold {
      WrappedMembers("external_text", "ref", ContentRefJson(env, bytes));
      StoredContent(env, blobs.utf8, bytes);
      DecodeEncode(v.s);
      RoundTripIff(v.s);
    }
  }

  /** A JSON root comes back up to the sign of zero, whatever it looks like: the wrapper around an inline
      root tells an imitation from the real thing. */
  lemma JsonComesBack(env: Env, blobs: Blobs, v: Json)
    requires Injective(env.epoch.sha) && Faithful(env, blobs) && JsonStored(env, blobs, v)
    ensures HydrateJson(blobs, JsonProduct(env, v)) ==
      if |Encode(JsonText(v))| < env.threshold then v else Normalized(v)
  {
    hide Encode, Decode, ContentRefJson, Wrapped, BlobOf, JsonText, Parse, Valid, Injective;
    var bytes := Encode(JsonText(v));
    if |bytes| >= env.threshold {
      WrappedMembers("external_json", "ref", ContentRefJson(env, bytes));
      KindsDiffer();
      StoredContent(env, blobs.utf8, bytes);
      ReadBack(v);
    } else {
      WrappedMembers("inline_json", "value", v);
    }
  }

  lemma KindsDiffer()
    ensures Word("external_json") != Word("inline_json")
  {
    WordsDiffer("external_json", "inline_json", 0);
  }

  lemma ImageComesBack(env: Env, blobs: Blobs, v: Json)
    requires Injective(env.epoch.sha) && Faithful(env, blobs) && ImageStored(env, blobs, v)
    ensures HydrateImage(blobs, ImageProduct(env.epoch, v)) == Ordered(v) && KeepsImage(ImageProduct(env.epoch, v))
  {
    hide AttachmentRefJson, Encode64, Decode64, Injective, Word, Get, ImageBlock, CanonicalLength;
    var bytes := Decode64(ImageData(v));
    var mimeType := Member(v, "mimeType").value;
    AttachmentMembers(env.epoch, bytes, mimeType);
    ImageMembers(AttachmentRefJson(env.epoch, bytes, mimeType), mimeType);
    AcceptedIsCanonical(ImageData(v));
    StoredBytes(env, blobs.attachments, bytes);
  }

  lemma ImageMembers(data: Json, mimeType: Json)
    ensures Member(ImageBlock(data, mimeType), "data") == Some(data)
    ensures Member(ImageBlock(data, mimeType), "mimeType") == Some(mimeType)
    ensures KeepsImage(ImageBlock(data, mimeType)) && ImageBlock(data, mimeType).Obj?
  {
    hide Word, Get;
    var fields := ImageBlock(data, mimeType).fields;
    WordsDiffer("type", "data", 0);
    WordsDiffer("type", "mimeType", 0);
    WordsDiffer("data", "mimeType", 0);
    GetAt(fields, "type", 0);
    GetAt(fields, "data", 1);
    GetAt(fields, "mimeType", 2);
  }

  /** The rebuilt block has the very fields of the raw one; only their order may change. */
  lemma OrderedIsSameRecord(v: Json)
    requires RawImage(v)
    ensures Ordered(v).Obj? && multiset(Ordered(v).fields) == multiset(v.fields)
  {
    hide Word, Get, CanonicalLength;
    var t := GetPlace(v.fields, "type");
    var d := GetPlace(v.fields, "data");
    var m := GetPlace(v.fields, "mimeType");
    WordsDiffer("type", "data", 0);
    WordsDiffer("type", "mimeType", 0);
    WordsDiffer("data", "mimeType", 0);
    assert v.fields == [v.fields[0], v.fields[1], v.fields[2]];
    assert {t, d, m} == {0, 1, 2};
    assert Ordered(v).fields == [v.fields[t], v.fields[d], v.fields[m]];
  }

  lemma {:induction false} GetPlace(fields: seq<Field>, key: string) returns (n: nat)
    requires Get(fields, key).Some?
    ensures n < |fields| && fields[n].key == Word(key) && Get(fields, key) == Some(fields[n].value)
  {
    if fields[0].key == Word(key) {
      n := 0;
    } else {
      n := GetPlace(fields[1..], key);
      n := n + 1;
    }
  }

  // ---------------------------------------------------------------- round trip

  /** What comes back: large texts have their unpaired surrogates replaced, large JSON roots lose the sign
      of negative zero, and image blocks have their fields in order. */
  function Recovered(env: Env): Leaves {
    Leaves(
      (v: Json) => if !v.Str? || |Encode(v.s)| < env.threshold then v else Str(Replaced(v.s)),
      v => if |Encode(JsonText(v))| < env.threshold then v else Normalized(v),
      v => Ordered(v))
  }

  /** The content of all the roots is in the store. */
  ghost function Stored(env: Env, blobs: Blobs): RootsAre {
    RootsAre(v => TextStored(env, blobs, v), v => JsonStored(env, blobs, v), v => ImageStored(env, blobs, v))
  }

  /** Externalizing a frame and reading it back recovers every root. */
  lemma RoundTrip(schema: Schema, v: Json, env: Env, blobs: Blobs)
    requires Injective(env.epoch.sha) && Faithful(env, blobs) && AllRoots(schema, v, Stored(env, blobs))
    ensures Walk(schema, Walk(schema, v, Products(env)), Hydration(blobs)) == Walk(schema, v, Recovered(env))
  {
    var p := Stored(env, blobs);
    assert Composes(Products(env), Hydration(blobs), Recovered(env), p) by {
      hide TextStored, JsonStored, ImageStored, HydrateText, HydrateJson, HydrateImage, TextProduct, JsonProduct,
        ImageProduct,
        KeepsImage, Walk, Faithful, Injective, Ordered, Replaced, Encode, JsonText;
      forall x | p.text(x) ensures HydrateText(blobs, TextProduct(env, x)) == Recovered(env).text(x) {
        StoredTextIsText(env, blobs, x);
        TextComesBack(env, blobs, x);
      }
      forall x | p.json(x)
        ensures HydrateJson(blobs, JsonProduct(env, x)) == Recovered(env).json(x)
      {
        JsonComesBack(env, blobs, x);
      }
      forall x | p.image(x)
        ensures HydrateImage(blobs, ImageProduct(env.epoch, x)) == Ordered(x) && KeepsImage(ImageProduct(env.epoch, x))
      {
        ImageComesBack(env, blobs, x);
      }
    }
    WalkComposes(schema, v, Products(env), Hydration(blobs), Recovered(env), p);
  }

  lemma StoredTextIsText(env: Env, blobs: Blobs, v: Json)
    requires TextStored(env, blobs, v)
    ensures v.Str?
  {
  }

  predicate NoNegativeZero(v: Json)
    decreases v
  {
    match v
    case NegativeZero => false
    case Arr(items) => forall i :: 0 <= i < |items| ==> NoNegativeZero(items[i])
    case Obj(fields) => forall i :: 0 <= i < |fields| ==> NoNegativeZero(fields[i].value)
    case _ => true
  }

  lemma {:induction false} NormalizedSame(v: Json)
    ensures NoNegativeZero(v) <==> Normalized(v) == v
    decreases v
  {
    match v
    case Arr(items) =>
      forall i | 0 <= i < |items|
        ensures NoNegativeZero(items[i]) <==> Normalized(v).items[i] == items[i]
      {
        NormalizedSame(items[i]);
      }
      if NoNegativeZero(v) { assert Normalized(v).items == items; }
    case Obj(fields) =>
      forall i | 0 <= i < |fields| ensures NoNegativeZero(fields[i].value) <==> Normalized(v).fields[i] == fields[i] {
        FieldSmaller(v, i);
        NormalizedSame(fields[i].value);
      }
      if NoNegativeZero(v) { assert Normalized(v).fields == fields; }
    case _ =>
  }

  /** The roots that come back as they were: no unpaired surrogate in a large text, no negative zero in a
      large JSON root, and the fields of image blocks in the order in which they are rebuilt. */
  function Exact(env: Env): RootsAre {
    RootsAre(
      (v: Json) => v.Str? && (|Encode(v.s)| < env.threshold || WellFormed(v.s)),
      v => |Encode(JsonText(v))| < env.threshold || NoNegativeZero(v),
      v => Ordered(v) == v)
  }

  lemma RecoveredRoots(env: Env, blobs: Blobs)
    requires Injective(env.epoch.sha) && Faithful(env, blobs)
    ensures forall x :: TextStored(env, blobs, x) ==> (Recovered(env).text(x) == x <==> Exact(env).text(x))
    ensures forall x :: Recovered(env).json(x) == x <==> Exact(env).json(x)
    ensures forall x :: Recovered(env).image(x) == x <==> Exact(env).image(x)
  {
    hide TextStored, HydrateText, TextProduct, Faithful, Injective, Ordered, Replaced, Encode, JsonText, Normalized,
      NoNegativeZero, WellFormed;
    forall x | TextStored(env, blobs, x) ensures Recovered(env).text(x) == x <==> Exact(env).text(x) {
      StoredTextIsText(env, blobs, x);
      TextComesBack(env, blobs, x);
    }
    forall x ensures Recovered(env).json(x) == x <==> Exact(env).json(x) { NormalizedSame(x); }
  }

  lemma RecoveredAgrees(env: Env, blobs: Blobs)
    requires Injective(env.epoch.sha) && Faithful(env, blobs)
    ensures AgreeOn(Stored(env, blobs), Unchanged(Recovered(env)), Exact(env))
  {
    hide Faithful, Injective, TextStored, JsonStored, ImageStored, Recovered, Exact;
    RecoveredRoots(env, blobs);
  }

  /** A frame comes back as the very same value exactly when all its roots do. */
  lemma SameFrameIff(schema: Schema, v: Json, env: Env, blobs: Blobs)
    requires Injective(env.epoch.sha) && Faithful(env, blobs) && AllRoots(schema, v, Stored(env, blobs))
    ensures Walk(schema, Walk(schema, v, Products(env)), Hydration(blobs)) == v <==> AllRoots(schema, v, Exact(env))
  {
    hide *;
    RoundTrip(schema, v, env, blobs);
    WalkFixes(schema, v, Recovered(env));
    RecoveredAgrees(env, blobs);
    SameRoots(schema, v, Stored(env, blobs), Unchanged(Recovered(env)), Exact(env));
  }

  // ---------------------------------------------------------------- logical size

  function RefBytes(v: Json): nat {
    match Member(v, "ref")
    case Some(ref) => (match Member(ref, "byteLength") case Some(Num(t)) => DecimalValue(t) case _ => 0)
    case None => 0
  }

  /** `countTextRoot` and `countJsonRoot` on values they accept. */
  function TextRootBytes(v: Json): nat { if v.Str? then |Encode(v.s)| else RefBytes(v) }

  function JsonRootBytes(v: Json): nat {
    if IsKind(v, "inline_json") && Member(v, "value").Some? then JsonBytes(Member(v, "value").value) else RefBytes(v)
  }

  function LogicalSizes(): RootSizes { RootSizes(v => TextRootBytes(v), v => JsonRootBytes(v), v => JsonBytes(v)) }

  /** The roots measured before externalization. */
  function RawSizes(epoch: Epoch): RootSizes {
    RootSizes((v: Json) => if v.Str? then |Encode(v.s)| else 0, v => JsonBytes(v),
              v => JsonBytes(ImageProduct(epoch, v)))
  }

  ghost function Measurable(): RootsAre { RootsAre((v: Json) => v.Str?, v => Numerals(v), v => RawImage(v)) }

  lemma TextSizeKept(env: Env, v: Json)
    requires v.Str?
    ensures TextRootBytes(TextProduct(env, v)) == |Encode(v.s)|
  {
    hide Encode, ContentRefJson, Wrapped, Decimal, DecimalValue;
    var bytes := Encode(v.s);
    if |bytes| >= env.threshold {
      assert !Wrapped("external_text", "ref", ContentRefJson(env, bytes)).Str? by {
        WrappedMembers("external_text", "ref", ContentRefJson(env, bytes));
      }
      WrappedMembers("external_text", "ref", ContentRefJson(env, bytes));
      RefMembers(env, bytes);
      DecimalRoundTrip(|bytes|);
    }
  }

  lemma JsonSizeKept(env: Env, v: Json)
    requires Numerals(v)
    ensures JsonRootBytes(JsonProduct(env, v)) == JsonBytes(v)
  {
    hide Encode, ContentRefJson, Wrapped, Decimal, DecimalValue, JsonText, JsonBytes, Numerals;
    var bytes := Encode(JsonText(v));
    JsonBytesExact(v);
    if |bytes| >= env.threshold {
      WrappedMembers("external_json", "ref", ContentRefJson(env, bytes));
      KindsDiffer();
      RefMembers(env, bytes);
      DecimalRoundTrip(|bytes|);
    } else {
      WrappedMembers("inline_json", "value", v);
    }
  }

  lemma ImageKept(env: Env, v: Json)
    requires RawImage(v)
    ensures KeepsImage(ImageProduct(env.epoch, v))
  {
    hide AttachmentRefJson, Word;
  }

  /** The analyzer charges an externalized frame what its raw roots measure. */
  lemma SizeIsRaw(schema: Schema, v: Json, env: Env)
    requires AllRoots(schema, v, Measurable())
    ensures Size(schema, Walk(schema, v, Products(env)), LogicalSizes()) == Size(schema, v, RawSizes(env.epoch))
  {
    var p := Measurable();
    assert Measures(Products(env), LogicalSizes(), RawSizes(env.epoch), p) by {
      hide TextRootBytes, JsonRootBytes, TextProduct, JsonProduct, ImageProduct, KeepsImage, Numerals, JsonBytes,
        RawImage, Size, Walk;
      forall x | p.text(x) ensures TextRootBytes(TextProduct(env, x)) == |Encode(x.s)| { TextSizeKept(env, x); }
      forall x | p.json(x) ensures JsonRootBytes(JsonProduct(env, x)) == JsonBytes(x) { JsonSizeKept(env, x); }
      forall x | p.image(x) ensures KeepsImage(ImageProduct(env.epoch, x)) { ImageKept(env, x); }
    }
    SizeOfWalk(schema, v, Products(env), LogicalSizes(), RawSizes(env.epoch), p);
  }

  /** So the logical size does not depend on the inline threshold. */
  lemma SizeIgnoresThreshold(schema: Schema, v: Json, env: Env, threshold: nat)
    requires AllRoots(schema, v, Measurable())
    ensures Size(schema, Walk(schema, v, Products(env)), LogicalSizes())
         == Size(schema, Walk(schema, v, Products(env.(threshold := threshold))), LogicalSizes())
  {
    SizeIsRaw(schema, v, env);
    SizeIsRaw(schema, v, env.(threshold := threshold));
  }
}
