/** Whole frames: what the externalizer makes of an event, an extension request or a response, and what
    comes of it when it is read back, measured and guarded. */
module ExternalizedFrames {
  import opened Prelude
  import opened Utf8
  import opened Json
  import opened BoundedUtf8Codec
  import opened JsonCounters
  import opened SessionSchema
  import opened SessionWalk
  import opened ContentProducts
  import opened FrameTraversals
  import opened DecoderShadows

  datatype FrameKind = OfEvent | OfExtension | OfResponse

  function SchemaOf(kind: FrameKind): Schema {
    match kind
    case OfEvent => SEvent
    case OfExtension => ExtensionRequest
    case OfResponse => SResponse
  }

  function Externalized(kind: FrameKind, v: Json, env: Env): Json {
    match kind
    case OfEvent => Event(v, Products(env))
    case OfExtension => Extension(v, Products(env))
    case OfResponse => Response(v, Products(env))
  }

  /** What the raw guards promise of a frame's shape. */
  predicate RawFrame(kind: FrameKind, v: Json) { OwnKeys(v) && (kind == OfResponse ==> SuccessfulData(v)) }

  /** The traversal replaces exactly the roots of the analyzer's walk. */
  lemma ExternalizedIsWalk(kind: FrameKind, v: Json, env: Env)
    requires RawFrame(kind, v)
    ensures Externalized(kind, v, env) == Walk(SchemaOf(kind), v, Products(env))
  {
    hide OwnKeys, SuccessfulData, Walk, Event, Extension, Response, JsonProduct, ImageProduct, Encode;
    match kind
    case OfEvent => EventIsWalk(v, Products(env));
    case OfExtension => ExtensionIsWalk(v, Products(env));
    case OfResponse => ResponseIsWalk(v, Products(env));
  }

  /** Externalize, then read back: it is the same frame if and only if no text root at or over the threshold
      has an unpaired surrogate, no JSON root at or over it has a negative zero, and the fields of image
      blocks are in the order in which they are rebuilt. Otherwise exactly those roots differ. */
  lemma FrameRoundTrip(kind: FrameKind, v: Json, env: Env, blobs: Blobs)
    requires RawFrame(kind, v) && Injective(env.epoch.sha) && Faithful(env, blobs)
    requires AllRoots(SchemaOf(kind), v, Stored(env, blobs))
    ensures Walk(SchemaOf(kind), Externalized(kind, v, env), Hydration(blobs)) == v <==>
      AllRoots(SchemaOf(kind), v, Exact(env))
    ensures Walk(SchemaOf(kind), Externalized(kind, v, env), Hydration(blobs)) ==
      Walk(SchemaOf(kind), v, Recovered(env))
  {
    hide *;
    ExternalizedIsWalk(kind, v, env);
    RoundTrip(SchemaOf(kind), v, env, blobs);
    SameFrameIff(SchemaOf(kind), v, env, blobs);
  }

  /** The logical size of an externalized frame does not depend on the inline threshold. */
  lemma FrameSizeIgnoresThreshold(kind: FrameKind, v: Json, env: Env, threshold: nat)
    requires RawFrame(kind, v) && AllRoots(SchemaOf(kind), v, Measurable())
    ensures Size(SchemaOf(kind), Externalized(kind, v, env), LogicalSizes())
         == Size(SchemaOf(kind), Externalized(kind, v, env.(threshold := threshold)), LogicalSizes())
  {
    hide *;
    ExternalizedIsWalk(kind, v, env);
    ExternalizedIsWalk(kind, v, env.(threshold := threshold));
    SizeIgnoresThreshold(SchemaOf(kind), v, env, threshold);
  }

  // ---------------------------------------------------------------- the product guards

  /** `isExternalContentRef`, as far as sizes go: of this epoch, and large enough not to be inline. */
  predicate GoodRef(env: Env, v: Option<Json>) {
    && v.Some? && IsKind(v.value, "content_ref") && Member(v.value, "serverEpoch") == Some(Str(env.epoch.name))
    && Member(v.value, "byteLength").Some? && Member(v.value, "byteLength").value.Num?
    && DecimalValue(Member(v.value, "byteLength").value.numeral) >= env.threshold
  }

  predicate TextGuard(env: Env, v: Json) {
    if v.Str? then |Encode(v.s)| < env.threshold else IsKind(v, "external_text") && GoodRef(env, Member(v, "ref"))
  }

  predicate JsonGuard(env: Env, v: Json) {
    if IsKind(v, "inline_json") then
      Member(v, "value").Some? && GuardFits(Member(v, "value").value, 0, 0, 0, 0, env.threshold)
    else IsKind(v, "external_json") && GoodRef(env, Member(v, "ref"))
  }

  lemma RefIsGood(env: Env, bytes: seq<Byte>)
    requires |bytes| >= env.threshold
    ensures GoodRef(env, Some(ContentRefJson(env, bytes)))
  {
    hide Word, Decimal, DecimalValue;
    RefMembers(env, bytes);
    DecimalRoundTrip(|bytes|);
    var fields := ContentRefJson(env, bytes).fields;
    WordsDiffer("type", "serverEpoch", 0);
    assert Get(fields[1..], "serverEpoch") == Some(Str(env.epoch.name));
  }

  /** The guards accept what the externalizer produces from text and from admitted JSON. */
  lemma TextPasses(env: Env, v: Json)
    requires v.Str?
    ensures TextGuard(env, TextProduct(env, v))
  {
    hide Word, Encode, ContentRefJson, GoodRef;
    if |Encode(v.s)| >= env.threshold {
      RefIsGood(env, Encode(v.s));
      WrappedMembers("external_text", "ref", ContentRefJson(env, Encode(v.s)));
    }
  }

  lemma JsonPasses(env: Env, v: Json)
    requires Numerals(v) && Admitted(v) && env.threshold <= GUARD_STRING_BYTES
    ensures JsonGuard(env, JsonProduct(env, v))
  {
    hide Word, Encode, JsonText, ContentRefJson, GoodRef, Admitted, GuardFits, Wrapped, Numerals;
    var bytes := Encode(JsonText(v));
    if |bytes| >= env.threshold {
      RefIsGood(env, bytes);
      WrappedMembers("external_json", "ref", ContentRefJson(env, bytes));
      KindsDiffer();
    } else {
      WrappedMembers("inline_json", "value", v);
      InlineAgrees(v, env.threshold);
    }
  }

  /** And inline they accept nothing the codec would have measured at the threshold or above. */
  lemma InlineIsBelow(env: Env, v: Json)
    requires Numerals(v) && env.threshold <= GUARD_STRING_BYTES && JsonGuard(env, Wrapped("inline_json", "value", v))
    ensures JsonProduct(env, v) == Wrapped("inline_json", "value", v) && Admitted(v)
  {
    hide Word, Encode, JsonText, GoodRef, Admitted, GuardFits, Wrapped, Numerals;
    WrappedMembers("inline_json", "value", v);
    InlineAgrees(v, env.threshold);
  }

  /** What the frames that get this far consist of. */
  ghost function Encodable(env: Env): RootsAre {
    RootsAre((v: Json) => v.Str?, v => Numerals(v) && Admitted(v), v => RawImage(v))
  }

  ghost function Guarded(env: Env): RootsAre {
    RootsAre(v => TextGuard(env, v), v => JsonGuard(env, v), v => KeepsImage(v))
  }

  /** Every root of an externalized frame passes its guard. */
  lemma FramePasses(kind: FrameKind, v: Json, env: Env)
    requires RawFrame(kind, v) && env.threshold <= GUARD_STRING_BYTES && AllRoots(SchemaOf(kind), v, Encodable(env))
    ensures AllRoots(SchemaOf(kind), Externalized(kind, v, env), Guarded(env))
  {
    hide Walk, AllRoots, Externalized, RawFrame, SchemaOf;
    ExternalizedIsWalk(kind, v, env);
    assert TurnsInto(Products(env), Encodable(env), Guarded(env)) by {
      hide TextGuard, JsonGuard, TextProduct, JsonProduct, ImageProduct, KeepsImage, Numerals, Admitted, RawImage;
      forall x: Json | x.Str? ensures TextGuard(env, TextProduct(env, x)) { TextPasses(env, x); }
      forall x | Numerals(x) && Admitted(x) ensures JsonGuard(env, JsonProduct(env, x)) { JsonPasses(env, x); }
      forall x | RawImage(x) ensures KeepsImage(ImageProduct(env.epoch, x)) { ImageKept(env, x); }
    }
    WalkedRoots(SchemaOf(kind), v, Products(env), Encodable(env), Guarded(env));
  }
}
