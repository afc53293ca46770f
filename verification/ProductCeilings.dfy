/** What the product guard of an externalized frame can still refuse once the raw guards have let the frame
    in and every root was externalized: too many images in one content list, an image past the hard
    attachment limit, and a response that is too long. */
module ProductCeilings {
  import opened Prelude
  import opened Utf8
  import opened Json
  import opened BoundedUtf8Codec
  import opened JsonCounters
  import opened Base64
  import opened SessionSchema
  import opened SessionWalk
  import opened ContentProducts
  import opened FrameTraversals
  import opened ExternalizedFrames
  import Raster = RasterAdmission

  const SESSION_ATTACHMENT_BLOB_MAX_BYTES: nat := 8388608
  const RESPONSE_MAX_BYTES: nat := 67108864

  datatype Limits = Limits(maxContentBytes: nat, maxDecodedBytes: nat, maxBlobBytes: nat, maxImageCount: nat)

  // ---------------------------------------------------------------- roots that can be externalized

  function MediaTypeOf(mimeType: Text): Option<Raster.MediaType> {
    if mimeType == Word("image/png") then Some(Raster.Png)
    else if mimeType == Word("image/jpeg") then Some(Raster.Jpeg)
    else if mimeType == Word("image/webp") then Some(Raster.Webp)
    else if mimeType == Word("image/gif") then Some(Raster.Gif)
    else None
  }

  /** The decoded bytes are a raster file of the media type. */
  predicate RasterOf(mimeType: Text, bytes: seq<Byte>) {
    MediaTypeOf(mimeType).Some? && Raster.Admitted(MediaTypeOf(mimeType).value, bytes, |bytes|)
  }

  /** An image that passes: canonical base64, within both limits, and a raster file of its media type. */
  predicate ImageAdmitted(limits: Limits, mimeType: Text, data: Text) {
    && CanonicalLength(data).Some?
    && |Decode64(data)| <= limits.maxDecodedBytes && |Decode64(data)| <= limits.maxBlobBytes
    && RasterOf(mimeType, Decode64(data))
  }

  function MimeOf(v: Json): Text
    requires RawImage(v)
  {
    Member(v, "mimeType").value.s
  }

  /** Roots that can be externalized. */
  ghost function Admissible(limits: Limits): RootsAre {
    RootsAre(
      (v: Json) => v.Str? && |Encode(v.s)| <= limits.maxContentBytes,
      v => Admitted(v) && |Encode(JsonText(v))| <= limits.maxContentBytes,
      v => RawImage(v) && ImageAdmitted(limits, MimeOf(v), ImageData(v)))
  }

  lemma MediaTypesAre(mimeType: Text)
    ensures MediaTypeOf(mimeType) == Some(Raster.Png) ==> mimeType == Word("image/png")
    ensures MediaTypeOf(mimeType) == Some(Raster.Jpeg) ==> mimeType == Word("image/jpeg")
    ensures MediaTypeOf(mimeType) == Some(Raster.Webp) ==> mimeType == Word("image/webp")
    ensures MediaTypeOf(mimeType) == Some(Raster.Gif) ==> mimeType == Word("image/gif")
  {
    hide Word;
  }

  /** One file passes under one media type only: the magic numbers exclude each other. */
  lemma OneMediaType(a: Text, b: Text, bytes: seq<Byte>)
    requires RasterOf(a, bytes) && RasterOf(b, bytes)
    ensures a == b
  {
    hide Word, MediaTypeOf;
    MediaTypesAre(a);
    MediaTypesAre(b);
    FirstByte(MediaTypeOf(a).value, bytes);
    FirstByte(MediaTypeOf(b).value, bytes);
  }

  function MagicByte(m: Raster.MediaType): Byte {
    match m case Png => 0x89 case Jpeg => 0xff case Webp => 0x52 case Gif => 0x47
  }

  lemma FirstByte(m: Raster.MediaType, bytes: seq<Byte>)
    requires Raster.Admitted(m, bytes, |bytes|)
    ensures bytes != [] && bytes[0] == MagicByte(m)
  {
    hide Raster.EndsWell, Raster.Nonzero;
    var prefix := bytes[..Raster.PrefixBytes(m)];
    match m
    case Png => assert prefix[..8][0] == 0x89;
    case Jpeg =>
    case Webp => assert prefix[..4][0] == 0x52;
    case Gif => assert prefix[..6][0] == 0x47;
  }

  // ---------------------------------------------------------------- the guard

  /** The lists of text blocks and image blocks. */
  predicate ContentList(schema: Schema) { schema == ReviewedBlocks || schema == UserBlocks }

  function ImageCount(items: seq<Json>): nat {
    if items == [] then 0 else (if KeepsImage(items[0]) then 1 else 0) + ImageCount(items[1..])
  }

  /** No content list of the frame has more than so many images. */
  predicate ListsFit(schema: Schema, v: Json, maxImageCount: nat)
    decreases v
  {
    if schema == TextRoot || schema == JsonRoot || schema == Ordinary || IsImage(schema, v) then true
    else
      match v
      case Arr(items) =>
        && (ContentList(schema) ==> ImageCount(items) <= maxImageCount)
        && forall i :: 0 <= i < |items| ==> ListsFit(ItemSchema(schema), items[i], maxImageCount)
      case Obj(fields) =>
        forall i :: 0 <= i < |fields| ==>
          ListsFit(ChildSchema(schema, fields, fields[i].key), fields[i].value, maxImageCount)
      case _ => true
  }

  /** `isImageContent` of a block with a reference. */
  predicate GoodAttachment(epoch: Epoch, limits: Limits, v: Json) {
    && KeepsImage(v)
    && Member(v, "mimeType").Some? && Member(v, "mimeType").value.Str?
    && MediaTypeOf(Member(v, "mimeType").value.s).Some?
    && Member(v, "data").Some?
    && var ref := Member(v, "data").value;
       && IsKind(ref, "attachment_ref") && Member(ref, "serverEpoch") == Some(Str(epoch.name))
       && Member(ref, "mediaType") == Member(v, "mimeType")
       && Member(ref, "byteLength").Some? && Member(ref, "byteLength").value.Num?
       && var length := DecimalValue(Member(ref, "byteLength").value.numeral);
          0 < length <= SESSION_ATTACHMENT_BLOB_MAX_BYTES && length <= limits.maxBlobBytes
  }

  function AttachmentsGood(epoch: Epoch, limits: Limits): RootsAre {
    RootsAre(v => true, v => true, v => GoodAttachment(epoch, limits, v))
  }

  /** What stands for a root in the shadow that is guarded: inline content itself, an empty text or `null`
      for a reference, always an empty list for the lines of a widget. */
  function Shadows(kind: FrameKind, env: Env): Leaves {
    Leaves(
      (v: Json) => if v.Str? && |Encode(v.s)| >= env.threshold then Str([]) else v,
      v => if kind == OfExtension then Arr([]) else if |Encode(JsonText(v))| >= env.threshold then Null else v,
      v => ImageProduct(env.epoch, v))
  }

  function GuardShadow(kind: FrameKind, v: Json, env: Env): Json { Walk(SchemaOf(kind), v, Shadows(kind, env)) }

  /** The conditions of the product guard that the raw guards do not have. */
  predicate ProductGuard(kind: FrameKind, shadow: Json, epoch: Epoch, limits: Limits) {
    && ListsFit(SchemaOf(kind), shadow, limits.maxImageCount)
    && AllRoots(SchemaOf(kind), shadow, AttachmentsGood(epoch, limits))
    && (kind == OfResponse ==> JsonBytes(shadow) <= RESPONSE_MAX_BYTES)
  }

  // ---------------------------------------------------------------- the same on the raw frame

  ghost function ImagesBelow(limit: nat): RootsAre {
    RootsAre(v => true, v => true, v => RawImage(v) && |Decode64(ImageData(v))| <= limit)
  }

  /** A frame whose externalized form passes: at most so many images in a list, none over the hard limit,
      and for a response a shadow that is not too long. */
  ghost predicate WithinCeilings(kind: FrameKind, v: Json, env: Env, limits: Limits) {
    && ListsFit(SchemaOf(kind), v, limits.maxImageCount)
    && AllRoots(SchemaOf(kind), v, ImagesBelow(SESSION_ATTACHMENT_BLOB_MAX_BYTES))
    && (kind == OfResponse ==> JsonBytes(GuardShadow(kind, v, env)) <= RESPONSE_MAX_BYTES)
  }

  /** A traversal that leaves images images keeps the number of images in every list. */
  ghost predicate KeepsImages(leaves: Leaves, p: RootsAre) { forall x :: p.image(x) ==> KeepsImage(leaves.image(x)) }

  lemma ListsUnfold(schema: Schema, v: Json, n: nat)
    requires schema != TextRoot && schema != JsonRoot && schema != Ordinary && !IsImage(schema, v)
    ensures v.Arr? ==> (ListsFit(schema, v, n) <==>
      (ContentList(schema) ==> ImageCount(v.items) <= n)
      && forall i :: 0 <= i < |v.items| ==> ListsFit(ItemSchema(schema), v.items[i], n))
    ensures v.Obj? ==> (ListsFit(schema, v, n) <==>
      forall i :: 0 <= i < |v.fields| ==>
        ListsFit(ChildSchema(schema, v.fields, v.fields[i].key), v.fields[i].value, n))
    ensures !v.Arr? && !v.Obj? ==> ListsFit(schema, v, n)
  {
    hide ChildSchema, Word, Get, ItemSchema, ImageCount, ContentList;
    if v.Arr? {} else if v.Obj? {} else {}
  }

  lemma {:induction false} WalkKeepsLists(schema: Schema, v: Json, leaves: Leaves, p: RootsAre, n: nat)
    requires AllRoots(schema, v, p) && KeepsImages(leaves, p)
    ensures ListsFit(schema, Walk(schema, v, leaves), n) <==> ListsFit(schema, v, n)
    decreases v
  {
    hide ChildSchema, Word, Walk, AllRoots, IsImage, ItemSchema, KeepsImages, Get, ListsFit;
    if schema == TextRoot || schema == JsonRoot || schema == Ordinary || IsImage(schema, v) {
      RootKeepsLists(schema, v, leaves, p, n);
    } else {
      WalkUnfolds(schema, v, leaves);
      RootsUnfold(schema, v, p);
      ListsUnfold(schema, v, n);
      if v.Arr? { ItemsKeepLists(schema, v, leaves, p, n); }
      if v.Obj? { FieldsKeepLists(schema, v, leaves, p, n); }
    }
  }

  lemma RootKeepsLists(schema: Schema, v: Json, leaves: Leaves, p: RootsAre, n: nat)
    requires schema == TextRoot || schema == JsonRoot || schema == Ordinary || IsImage(schema, v)
    requires AllRoots(schema, v, p) && KeepsImages(leaves, p)
    ensures ListsFit(schema, Walk(schema, v, leaves), n) && ListsFit(schema, v, n)
  {
    hide ChildSchema, Word, Get, ItemSchema, WalkItems, WalkFields;
    if schema == TextRoot {} else if schema == JsonRoot {} else if schema == Ordinary {} else {}
  }

  lemma {:induction false} ItemsKeepLists(schema: Schema, v: Json, leaves: Leaves, p: RootsAre, n: nat)
    requires v.Arr? && schema != TextRoot && schema != JsonRoot && schema != Ordinary && KeepsImages(leaves, p)
    requires forall i :: 0 <= i < |v.items| ==> AllRoots(ItemSchema(schema), v.items[i], p)
    ensures ListsFit(schema, Arr(WalkItems(ItemSchema(schema), v.items, leaves)), n) <==> ListsFit(schema, v, n)
    decreases v, 0
  {
    hide Walk, AllRoots, ItemSchema, KeepsImages, ListsFit, ImageCount, ContentList;
    var items := WalkItems(ItemSchema(schema), v.items, leaves);
    forall i | 0 <= i < |items|
      ensures ListsFit(ItemSchema(schema), items[i], n) <==> ListsFit(ItemSchema(schema), v.items[i], n)
    {
      WalkKeepsLists(ItemSchema(schema), v.items[i], leaves, p, n);
    }
    if ContentList(schema) { CountKept(schema, v.items, leaves, p); }
    ListsUnfold(schema, Arr(items), n);
    ListsUnfold(schema, v, n);
  }

  lemma {:induction false} FieldsKeepLists(schema: Schema, v: Json, leaves: Leaves, p: RootsAre, n: nat)
    requires v.Obj? && schema != TextRoot && schema != JsonRoot && schema != Ordinary && !IsImage(schema, v)
    requires KeepsImages(leaves, p)
    requires forall i :: 0 <= i < |v.fields| ==>
      AllRoots(ChildSchema(schema, v.fields, v.fields[i].key), v.fields[i].value, p)
    ensures ListsFit(schema, Obj(WalkFields(schema, v.fields, leaves)), n) <==> ListsFit(schema, v, n)
    decreases v, 0
  {
    hide Walk, AllRoots, ChildSchema, KeepsImages, Word, Get, ListsFit;
    var fields := WalkFields(schema, v.fields, leaves);
    WalkKeepsShape(schema, v.fields, leaves);
    assert Decides("type");
    forall i | 0 <= i < |fields|
      ensures ListsFit(ChildSchema(schema, fields, fields[i].key), fields[i].value, n)
        <==> ListsFit(ChildSchema(schema, v.fields, v.fields[i].key), v.fields[i].value, n)
    {
      SameSchemas(schema, v.fields, fields, fields[i].key);
      FieldSmaller(v, i);
      WalkKeepsLists(ChildSchema(schema, v.fields, v.fields[i].key), v.fields[i].value, leaves, p, n);
    }
    ListsUnfold(schema, Obj(fields), n);
    ListsUnfold(schema, v, n);
  }

  lemma {:induction false} CountKept(schema: Schema, items: seq<Json>, leaves: Leaves, p: RootsAre)
    requires ContentList(schema) && KeepsImages(leaves, p)
    requires forall i :: 0 <= i < |items| ==> AllRoots(ItemSchema(schema), items[i], p)
    ensures ImageCount(WalkItems(ItemSchema(schema), items, leaves)) == ImageCount(items)
  {
    hide Walk, AllRoots, KeepsImages, KeepsImage;
    if items != [] {
      BlockKept(ItemSchema(schema), items[0], leaves, p);
      CountKept(schema, items[1..], leaves, p);
      assert WalkItems(ItemSchema(schema), items, leaves)[1..] == WalkItems(ItemSchema(schema), items[1..], leaves);
    }
  }

  /** A block of a content list is an image afterwards exactly when it was one before. */
  lemma BlockKept(schema: Schema, v: Json, leaves: Leaves, p: RootsAre)
    requires (schema == ReviewedBlock || schema == UserBlock) && KeepsImages(leaves, p) && AllRoots(schema, v, p)
    ensures KeepsImage(Walk(schema, v, leaves)) <==> KeepsImage(v)
  {
    hide Word, Get, ChildSchema, WalkItems;
    if IsImage(schema, v) {
    } else if v.Obj? {
      WalkUnfolds(schema, v, leaves);
      WalkKeepsShape(schema, v.fields, leaves);
      assert Decides("type");
    } else {
      WalkUnfolds(schema, v, leaves);
    }
  }

  // ---------------------------------------------------------------- references

  lemma AttachmentKind(epoch: Epoch, bytes: seq<Byte>, mimeType: Json)
    ensures var ref := AttachmentRefJson(epoch, bytes, mimeType);
      && IsKind(ref, "attachment_ref") && Member(ref, "serverEpoch") == Some(Str(epoch.name))
  {
    hide Word, Get, Decimal;
    var fields := AttachmentRefJson(epoch, bytes, mimeType).fields;
    WordsDiffer("type", "serverEpoch", 0);
    GetAt(fields, "type", 0);
    GetAt(fields, "serverEpoch", 1);
  }

  lemma AttachmentSize(epoch: Epoch, bytes: seq<Byte>, mimeType: Json)
    ensures var ref := AttachmentRefJson(epoch, bytes, mimeType);
      && Member(ref, "mediaType") == Some(mimeType) && Member(ref, "byteLength") == Some(Num(Decimal(|bytes|)))
  {
    hide Word, Get, Decimal;
    var fields := AttachmentRefJson(epoch, bytes, mimeType).fields;
    WordsDiffer("type", "mediaType", 0);
    WordsDiffer("serverEpoch", "mediaType", 0);
    WordsDiffer("sha256", "mediaType", 0);
    WordsDiffer("type", "byteLength", 0);
    WordsDiffer("serverEpoch", "byteLength", 0);
    WordsDiffer("sha256", "byteLength", 0);
    WordsDiffer("mediaType", "byteLength", 0);
    GetAt(fields, "mediaType", 3);
    GetAt(fields, "byteLength", 4);
  }

  /** The reference to an admitted image is refused only for its size. */
  lemma AttachmentGuarded(env: Env, limits: Limits, v: Json)
    requires RawImage(v) && ImageAdmitted(limits, MimeOf(v), ImageData(v))
    ensures GoodAttachment(env.epoch, limits, ImageProduct(env.epoch, v))
      <==> |Decode64(ImageData(v))| <= SESSION_ATTACHMENT_BLOB_MAX_BYTES
  {
    hide AttachmentRefJson, Decode64, CanonicalLength, ImageBlock, Word, Get, Raster.Admitted, MediaTypeOf, IsKind,
      KeepsImage, DecimalValue, Decimal;
    var bytes, mimeType := Decode64(ImageData(v)), Member(v, "mimeType").value;
    var ref := AttachmentRefJson(env.epoch, bytes, mimeType);
    ImageMembers(ref, mimeType);
    AttachmentKind(env.epoch, bytes, mimeType);
    AttachmentSize(env.epoch, bytes, mimeType);
    DecimalRoundTrip(|bytes|);
    FirstByte(MediaTypeOf(MimeOf(v)).value, bytes);
  }

  /** For every frame whose roots are admissible the product guard accepts the shadow if and only if the raw
      frame is within the ceilings. */
  lemma ProductGuardIff(kind: FrameKind, v: Json, env: Env, limits: Limits)
    requires AllRoots(SchemaOf(kind), v, Admissible(limits))
    ensures ProductGuard(kind, GuardShadow(kind, v, env), env.epoch, limits) <==> WithinCeilings(kind, v, env, limits)
  {
    hide Walk, AllRoots, ListsFit, Admitted, Encode, JsonText, ImageAdmitted, ImageProduct, RawImage, KeepsImage,
      GoodAttachment, JsonBytes;
    assert KeepsImages(Shadows(kind, env), Admissible(limits)) by {
      forall x | Admissible(limits).image(x) ensures KeepsImage(Shadows(kind, env).image(x)) { ImageKept(env, x); }
    }
    WalkKeepsLists(SchemaOf(kind), v, Shadows(kind, env), Admissible(limits), limits.maxImageCount);
    AttachmentsGuarded(SchemaOf(kind), v, kind, env, limits);
  }

  lemma AttachmentsGuarded(schema: Schema, v: Json, kind: FrameKind, env: Env, limits: Limits)
    requires AllRoots(schema, v, Admissible(limits))
    ensures AllRoots(schema, Walk(schema, v, Shadows(kind, env)), AttachmentsGood(env.epoch, limits))
      <==> AllRoots(schema, v, ImagesBelow(SESSION_ATTACHMENT_BLOB_MAX_BYTES))
  {
    hide Walk, AllRoots, Admitted, Encode, JsonText, ImageAdmitted, ImageProduct, RawImage, KeepsImage,
      GoodAttachment, Decode64, MimeOf, ImageData;
    forall x | Admissible(limits).image(x)
      ensures GoodAttachment(env.epoch, limits, ImageProduct(env.epoch, x))
        <==> RawImage(x) && |Decode64(ImageData(x))| <= SESSION_ATTACHMENT_BLOB_MAX_BYTES
      ensures KeepsImage(ImageProduct(env.epoch, x))
    {
      AttachmentGuarded(env, limits, x);
      ImageKept(env, x);
    }
    WalkedRootsIff(schema, v, Shadows(kind, env), Admissible(limits), AttachmentsGood(env.epoch, limits),
      ImagesBelow(SESSION_ATTACHMENT_BLOB_MAX_BYTES));
  }

  // ---------------------------------------------------------------- a frame that does not come back

  /** A `tool_execution_end` as the raw guard lets it through. */
  function ToolEnd(result: Json): Json {
    Obj([FieldOf("type", Str(Word("tool_execution_end"))), FieldOf("toolCallId", Str(Word("c"))),
         FieldOf("toolName", Str(Word("t"))), FieldOf("result", result), FieldOf("isError", Bool(false))])
  }

  /** A text of `n` letters and a negative zero. */
  function Signed(n: nat): Json { Arr([Str(Letters(n)), NegativeZero]) }

  function Letters(n: nat): (t: Text)
    ensures |t| == n && forall i :: 0 <= i < n ==> t[i] == 0x61
  {
    seq(n, _ => 0x61)
  }

  lemma {:induction false} LettersEscape(n: nat)
    ensures Escape(Letters(n)) == Letters(n)
  {
    if n > 0 {
      LettersEscape(n - 1);
      assert Letters(n)[1..] == Letters(n - 1);
      assert [0x61] + Letters(n - 1) == Letters(n);
    }
  }

  lemma SignedBytes(n: nat)
    ensures |Encode(JsonText(Signed(n)))| == n + 6 && |Encode(Letters(n))| == n
  {
    hide Encode, JsonText, Letters;
    var s, items := Letters(n), Signed(n).items;
    LettersEscape(n);
    AsciiEncode(s);
    AsciiEncode([QUOTE] + s + [QUOTE]);
    NumeralsSigned(n);
    JsonBytesExact(Signed(n));
    assert items[1..] == [NegativeZero] && [NegativeZero][1..] == [];
    assert JsonBytes(items[0]) == n + 2;
    assert JsonBytesAll([NegativeZero]) == 1;
    assert JsonBytesAll(items) == n + 3;
  }

  lemma NumeralsSigned(n: nat)
    ensures Numerals(Signed(n)) && OwnKeys(Signed(n)) && Valid(Signed(n)) && !NoNegativeZero(Signed(n))
  {
    hide Letters;
    assert Signed(n).items[1] == NegativeZero;
  }

  /** Only the result is a root, and there is no content list. */
  lemma ResultIsRoot(v: Json, p: RootsAre)
    ensures AllRoots(SEvent, ToolEnd(v), p) <==> p.json(v)
    ensures forall n :: ListsFit(SEvent, ToolEnd(v), n)
    ensures OwnKeys(v) ==> OwnKeys(ToolEnd(v))
    ensures Numerals(v) ==> Numerals(ToolEnd(v))
  {
    hide ChildSchema, Word, Get, AllRoots, ListsFit, OwnKeys, Numerals;
    var frame := ToolEnd(v);
    ToolEndSchemas(v);
    ToolEndKeys(v);
    ToolEndRoots(v, p);
    RootsUnfold(SEvent, frame, p);
    assert frame.fields[3].value == v;
    forall n ensures ListsFit(SEvent, frame, n) { ListsUnfold(SEvent, frame, n); }
  }

  lemma ToolEndRoots(v: Json, p: RootsAre)
    ensures forall x :: AllRoots(Ordinary, x, p)
    ensures forall x, n :: ListsFit(Ordinary, x, n)
    ensures AllRoots(JsonRoot, v, p) <==> p.json(v)
    ensures forall n :: ListsFit(JsonRoot, v, n)
  {
  }

  lemma ToolEndKeys(v: Json)
    ensures OwnKeys(v) ==> OwnKeys(ToolEnd(v))
    ensures Numerals(v) ==> Numerals(ToolEnd(v))
  {
    hide Word, ValidNumeral;
    var fields := ToolEnd(v).fields;
    assert forall i :: 0 <= i < |fields| && i != 3 ==> OwnKeys(fields[i].value) && Numerals(fields[i].value);
    ToolEndKeysDiffer(v);
  }

  lemma ToolEndKeysDiffer(v: Json)
    ensures var fields := ToolEnd(v).fields;
      forall i, j :: 0 <= i < j < |fields| ==> fields[i].key != fields[j].key
  {
    hide Word;
    WordsDiffer("type", "toolCallId", 0);
    WordsDiffer("type", "toolName", 0);
    WordsDiffer("type", "result", 0);
    WordsDiffer("type", "isError", 0);
    WordsDiffer("toolCallId", "toolName", 0);
    WordsDiffer("toolCallId", "result", 0);
    WordsDiffer("toolCallId", "isError", 0);
    WordsDiffer("toolName", "result", 0);
    WordsDiffer("toolName", "isError", 0);
    WordsDiffer("result", "isError", 0);
  }

  lemma ToolEndSchemas(v: Json)
    ensures var fields := ToolEnd(v).fields;
      forall i :: 0 <= i < |fields| ==> ChildSchema(SEvent, fields, fields[i].key) == if i == 3 then JsonRoot
        else Ordinary
  {
    hide Word, Get;
    var fields := ToolEnd(v).fields;
    ToolEndKeyIs(v);
    EndIsNoOther(fields);
  }

  lemma ToolEndKeyIs(v: Json)
    ensures var fields := ToolEnd(v).fields;
      && Get(fields, "type") == Some(Str(Word("tool_execution_end"))) && |fields| == 5
      && forall i :: 0 <= i < |fields| ==> (fields[i].key == Word("result") <==> i == 3)
  {
    hide Word, Get;
    GetAt(ToolEnd(v).fields, "type", 0);
    WordsDiffer("type", "result", 0);
    WordsDiffer("toolCallId", "result", 0);
    WordsDiffer("toolName", "result", 0);
    WordsDiffer("isError", "result", 0);
  }

  lemma EndIsNoOther(fields: seq<Field>)
    requires Is(fields, "type", "tool_execution_end")
    ensures !Is(fields, "type", "agent_end") && !Is(fields, "type", "turn_end")
    ensures !Is(fields, "type", "message_start") && !Is(fields, "type", "message_end")
    ensures !Is(fields, "type", "entry_appended") && !Is(fields, "type", "message_update")
    ensures !Is(fields, "type", "tool_execution_start") && !Is(fields, "type", "tool_execution_update")
  {
    hide Word, Get;
    WordsDiffer("tool_execution_end", "agent_end", 0);
    WordsDiffer("tool_execution_end", "turn_end", 0);
    WordsDiffer("tool_execution_end", "message_start", 0);
    WordsDiffer("tool_execution_end", "message_end", 0);
    WordsDiffer("tool_execution_end", "entry_appended", 0);
    WordsDiffer("tool_execution_end", "message_update", 0);
    WordsDiffer("tool_execution_end", "tool_execution_start", 0);
    WordsDiffer("tool_execution_end", "tool_execution_update", 0);
  }

  lemma SignedIs(n: nat)
    requires n <= MAX_JSON_STRING_BYTES
    ensures OwnKeys(Signed(n)) && Valid(Signed(n)) && Numerals(Signed(n)) && Admitted(Signed(n))
    ensures !NoNegativeZero(Signed(n))
  {
    hide Encode, JsonText, Letters, Numerals, OwnKeys, Valid, NoNegativeZero;
    NumeralsSigned(n);
    SignedBytes(n);
    var items := Signed(n).items;
    assert items[1..] == [NegativeZero] && [NegativeZero][1..] == [];
    assert ItemsAll([NegativeZero]) == 1;
    assert ItemsAll(items) == 2;
    assert StringBytesAll([NegativeZero]) == 0;
    assert StringBytesAll(items) == n;
    assert Shaped(items[0], 1) && Shaped(items[1], 1);
    assert Shaped(Signed(n), 0);
  }

  /** Whatever the threshold and the content limit, up to the ceiling of the codec, there is a frame that the
      externalizer takes and that does not come back: a tool whose result is a text that reaches the
      threshold, and a negative zero. */
  lemma NegativeZerosAreLost(env: Env, limits: Limits)
    requires Injective(env.epoch.sha)
    requires 6 <= env.threshold <= limits.maxContentBytes && env.threshold <= MAX_JSON_STRING_BYTES
    ensures var v := ToolEnd(Signed(env.threshold - 6));
      var bytes := Encode(JsonText(Signed(env.threshold - 6)));
      var blobs := Blobs(map[env.epoch.sha(bytes) := bytes], map[]);
      && RawFrame(OfEvent, v) && Numerals(v)
      && AllRoots(SEvent, v, Admissible(limits)) && WithinCeilings(OfEvent, v, env, limits)
      && Faithful(env, blobs) && AllRoots(SEvent, v, Stored(env, blobs))
      && Walk(SEvent, Externalized(OfEvent, v, env), Hydration(blobs)) != v
  {
    hide Walk, Externalized, AllRoots, Injective, JsonText, Encode, Word, OwnKeys, JsonBytes, NoNegativeZero, Numerals,
      Valid, ToolEnd, Signed, Admitted, ListsFit;
    var n := env.threshold - 6;
    var bytes := Encode(JsonText(Signed(n)));
    var blobs := Blobs(map[env.epoch.sha(bytes) := bytes], map[]);
    SignedIs(n);
    SignedBytes(n);
    ResultIsRoot(Signed(n), Stored(env, blobs));
    ResultIsRoot(Signed(n), Exact(env));
    ResultIsRoot(Signed(n), Admissible(limits));
    ResultIsRoot(Signed(n), ImagesBelow(SESSION_ATTACHMENT_BLOB_MAX_BYTES));
    FrameRoundTrip(OfEvent, ToolEnd(Signed(n)), env, blobs);
  }
}
