/** The run that externalizes one frame: its memo maps, the content it takes hold of, and its traversal. */
module FrameExternalizer {
  import opened Prelude
  import opened Utf8
  import opened Json
  import opened BoundedUtf8Codec
  import opened JsonCounters
  import opened Base64
  import opened SessionSchema
  import opened SessionWalk
  import opened ContentProducts
  import opened FrameTraversals
  import opened ExternalizedFrames
  import opened ProductCeilings
  import Raster = RasterAdmission

  // ---------------------------------------------------------------- what a run has taken

  /** The content that was stored so far, and the references of the holds that were taken. */
  datatype Taken = Taken(blobs: Blobs, holds: seq<Json>)

  ghost predicate Keeps(a: map<Text, seq<Byte>>, b: map<Text, seq<Byte>>) {
    forall d :: d in a ==> d in b && b[d] == a[d]
  }

  ghost predicate Grows(a: Taken, b: Taken) {
    Keeps(a.blobs.utf8, b.blobs.utf8) && Keeps(a.blobs.attachments, b.blobs.attachments) && a.holds <= b.holds
  }

  /** Large content is stored, and one of the holds is for it. */
  predicate Secured(env: Env, taken: Taken, bytes: seq<Byte>) {
    |bytes| >= env.threshold ==> env.epoch.sha(bytes) in taken.blobs.utf8 && ContentRefJson(env, bytes) in taken.holds
  }

  predicate SecuredImage(env: Env, limits: Limits, taken: Taken, mimeType: Text, data: Text) {
    && ImageAdmitted(limits, mimeType, data)
    && env.epoch.sha(Decode64(data)) in taken.blobs.attachments
    && AttachmentRefJson(env.epoch, Decode64(data), Str(mimeType)) in taken.holds
  }

  ghost predicate SecuredJson(env: Env, limits: Limits, taken: Taken, v: Json) {
    && Numerals(v) && Admitted(v) && Valid(v) && |Encode(JsonText(v))| <= limits.maxContentBytes
    && Secured(env, taken, Encode(JsonText(v)))
  }

  /** Roots that were externalized for good: admitted, stored and held. */
  ghost function SecuredRoots(env: Env, limits: Limits, taken: Taken): RootsAre {
    RootsAre(
      (v: Json) => v.Str? && |Encode(v.s)| <= limits.maxContentBytes && Secured(env, taken, Encode(v.s)),
      v => SecuredJson(env, limits, taken, v),
      v => RawImage(v) && SecuredImage(env, limits, taken, MimeOf(v), ImageData(v)))
  }

  lemma GrowsFrom(a: Taken, b: Taken, c: Taken)
    requires Grows(a, b) && Grows(b, c)
    ensures Grows(a, c)
  {
  }

  lemma StaysSecured(env: Env, a: Taken, b: Taken, bytes: seq<Byte>)
    requires Grows(a, b) && Secured(env, a, bytes)
    ensures Secured(env, b, bytes)
  {
    hide ContentRefJson;
  }

  lemma ImageStaysSecured(env: Env, limits: Limits, a: Taken, b: Taken, mimeType: Text, data: Text)
    requires Grows(a, b) && SecuredImage(env, limits, a, mimeType, data)
    ensures SecuredImage(env, limits, b, mimeType, data)
  {
    hide AttachmentRefJson, ImageAdmitted;
  }

  lemma RawImageKept(v: Json)
    requires RawImage(v)
    ensures KeepsImage(v)
  {
    hide Word, Get;
  }

  /** What was secured stays secured while the run goes on. */
  lemma RootsStaySecured(schema: Schema, v: Json, env: Env, limits: Limits, a: Taken, b: Taken)
    requires Grows(a, b) && AllRoots(schema, v, SecuredRoots(env, limits, a))
    ensures AllRoots(schema, v, SecuredRoots(env, limits, b))
  {
    hide AllRoots, Walk, Grows, Secured, SecuredImage, RawImage, Admitted, Valid, Numerals, JsonText, Encode,
      KeepsImage;
    var p, q := SecuredRoots(env, limits, a), SecuredRoots(env, limits, b);
    forall x | p.text(x) ensures q.text(x) { StaysSecured(env, a, b, Encode(x.s)); }
    forall x | p.json(x) ensures q.json(x) { StaysSecured(env, a, b, Encode(JsonText(x))); }
    forall x | p.image(x) ensures q.image(x) && KeepsImage(x) {
      ImageStaysSecured(env, limits, a, b, MimeOf(x), ImageData(x));
      RawImageKept(x);
    }
    WalkedRoots(schema, v, Identity(), p, q);
    WalkIdentity(schema, v);
  }

  /** Secured roots are stored roots. */
  lemma SecuredIsStored(schema: Schema, v: Json, env: Env, limits: Limits, taken: Taken)
    requires AllRoots(schema, v, SecuredRoots(env, limits, taken))
    ensures AllRoots(schema, v, Stored(env, taken.blobs))
  {
    hide AllRoots, Walk, RawImage, Admitted, Valid, Numerals, JsonText, Encode, KeepsImage, ContentRefJson,
      AttachmentRefJson, ImageAdmitted;
    var p, q := SecuredRoots(env, limits, taken), Stored(env, taken.blobs);
    forall x | p.image(x) ensures KeepsImage(x) { RawImageKept(x); }
    WalkedRoots(schema, v, Identity(), p, q);
    WalkIdentity(schema, v);
  }

  // ---------------------------------------------------------------- the memo maps

  ghost predicate TextsKnown(env: Env, limits: Limits, textByIdentity: map<Text, Json>, taken: Taken) {
    forall s :: s in textByIdentity ==>
      textByIdentity[s] == TextProduct(env, Str(s)) && |Encode(s)| <= limits.maxContentBytes &&
        Secured(env, taken, Encode(s))
  }

  ghost predicate DigestsKnown(env: Env, utf8ByDigest: map<Text, Json>, taken: Taken) {
    forall d :: d in utf8ByDigest ==>
      d in taken.blobs.utf8 && utf8ByDigest[d] == ContentRefJson(env, taken.blobs.utf8[d]) &&
        utf8ByDigest[d] in taken.holds
  }

  ghost predicate ImagesKnown(env: Env, limits: Limits, byInlineIdentity: map<(Text, Text), Json>, taken: Taken) {
    forall k :: k in byInlineIdentity ==>
      && byInlineIdentity[k] == AttachmentRefJson(env.epoch, Decode64(k.1), Str(k.0))
      && SecuredImage(env, limits, taken, k.0, k.1)
  }

  /** Each digest with the media type under which its content was admitted. */
  ghost predicate ImageDigestsKnown(env: Env, byDigest: map<Text, Json>, admittedAs: map<Text, Text>, taken: Taken) {
    forall d :: d in byDigest ==>
      && d in admittedAs && d in taken.blobs.attachments && byDigest[d] in taken.holds
      && byDigest[d] == AttachmentRefJson(env.epoch, taken.blobs.attachments[d], Str(admittedAs[d]))
      && RasterOf(admittedAs[d], taken.blobs.attachments[d])
  }

  lemma TextsStayKnown(env: Env, limits: Limits, texts: map<Text, Json>, a: Taken, b: Taken)
    requires TextsKnown(env, limits, texts, a) && Grows(a, b)
    ensures TextsKnown(env, limits, texts, b)
  {
    hide ContentRefJson, TextProduct, Encode;
  }

  lemma DigestsStayKnown(env: Env, digests: map<Text, Json>, a: Taken, b: Taken)
    requires DigestsKnown(env, digests, a) && Grows(a, b)
    ensures DigestsKnown(env, digests, b)
  {
    hide ContentRefJson;
  }

  lemma ImagesStayKnown(env: Env, limits: Limits, images: map<(Text, Text), Json>, a: Taken, b: Taken)
    requires ImagesKnown(env, limits, images, a) && Grows(a, b)
    ensures ImagesKnown(env, limits, images, b)
  {
    hide AttachmentRefJson, ImageAdmitted;
  }

  lemma ImageDigestsStayKnown(env: Env, digests: map<Text, Json>, admittedAs: map<Text, Text>, a: Taken, b: Taken)
    requires ImageDigestsKnown(env, digests, admittedAs, a) && Grows(a, b)
    ensures ImageDigestsKnown(env, digests, admittedAs, b)
  {
    hide AttachmentRefJson, RasterOf;
  }

  /** Content whose digest is known was admitted under the same media type, so its reference is the same. */
  lemma SameReference(env: Env, limits: Limits, digests: map<Text, Json>, admittedAs: map<Text, Text>, taken: Taken,
      mimeType: Text, data: Text)
    requires Injective(env.epoch.sha) && Faithful(env, taken.blobs)
    requires ImageDigestsKnown(env, digests, admittedAs, taken) && ImageAdmitted(limits, mimeType, data)
    requires env.epoch.sha(Decode64(data)) in digests
    ensures digests[env.epoch.sha(Decode64(data))] == AttachmentRefJson(env.epoch, Decode64(data), Str(mimeType))
  {
    hide AttachmentRefJson, RasterOf, Decode64, CanonicalLength;
    var digest := env.epoch.sha(Decode64(data));
    StoredBytes(env, taken.blobs.attachments, Decode64(data));
    OneMediaType(admittedAs[digest], mimeType, Decode64(data));
  }

  /** Storing content under its digest takes nothing back. */
  lemma StoringKeeps(env: Env, contents: map<Text, seq<Byte>>, bytes: seq<Byte>)
    requires Injective(env.epoch.sha) && forall d :: d in contents ==> env.epoch.sha(contents[d]) == d
    ensures Keeps(contents, contents[env.epoch.sha(bytes) := bytes])
    ensures env.epoch.sha(bytes) in contents ==> contents[env.epoch.sha(bytes)] == bytes
  {
  }

  // ---------------------------------------------------------------- the run

  /** `FrameState`. A miss acquires content from the store, which may fail, before or after it has handed
      out a hold; so may the caller abort. */
  class FrameState {
    const env: Env
    const limits: Limits
    var byInlineIdentity: map<(Text, Text), Json>
    var byDigest: map<Text, Json>
    var utf8ByDigest: map<Text, Json>
    var textByIdentity: map<Text, Json>
    var holds: seq<Json>
    ghost var blobs: Blobs
    /** The store failed, or the caller aborted. */
    ghost var interrupted: bool
    ghost var admittedAs: map<Text, Text>

    ghost predicate Running()
      reads this
    {
      !interrupted
    }

    ghost function Now(): Taken
      reads this
    {
      Taken(blobs, holds)
    }

    /** Every map entry is what would be computed afresh, and its content is stored and held. */
    ghost predicate Consistent()
      reads this
    {
      && TextsKnown(env, limits, textByIdentity, Now())
      && DigestsKnown(env, utf8ByDigest, Now())
      && ImagesKnown(env, limits, byInlineIdentity, Now())
      && ImageDigestsKnown(env, byDigest, admittedAs, Now())
      && Faithful(env, blobs)
    }

    /** One hold for each content, text or image. */
    ghost predicate Counted()
      reads this
    {
      |holds| == |utf8ByDigest| + |byDigest|
    }

    constructor (env: Env, limits: Limits)
      ensures this.env == env && this.limits == limits
      ensures Consistent() && Counted() && holds == [] && blobs == Blobs(map[], map[]) && Running()
    {
      this.env, this.limits := env, limits;
      byInlineIdentity, byDigest, utf8ByDigest, textByIdentity := map[], map[], map[], map[];
      holds, blobs, admittedAs, interrupted := [], Blobs(map[], map[]), map[], false;
    }

    /** A hold on text content, with the bytes in the store. */
    method TakeUtf8(bytes: seq<Byte>)
      requires Consistent() && Injective(env.epoch.sha)
      modifies this`holds, this`blobs
      ensures Consistent() && Grows(old(Now()), Now())
      ensures holds == old(holds) + [ContentRefJson(env, bytes)]
      ensures blobs.attachments == old(blobs.attachments) && env.epoch.sha(bytes) in blobs.utf8
      ensures blobs.utf8[env.epoch.sha(bytes)] == bytes
    {
      hide TextsKnown, DigestsKnown, ImagesKnown, ImageDigestsKnown, ContentRefJson, Injective;
      ghost var before := Now();
      StoringKeeps(env, blobs.utf8, bytes);
      holds := holds + [ContentRefJson(env, bytes)];
      blobs := blobs.(utf8 := blobs.utf8[env.epoch.sha(bytes) := bytes]);
      TextsStayKnown(env, limits, textByIdentity, before, Now());
      DigestsStayKnown(env, utf8ByDigest, before, Now());
      ImagesStayKnown(env, limits, byInlineIdentity, before, Now());
      ImageDigestsStayKnown(env, byDigest, admittedAs, before, Now());
    }

    method TakeAttachment(bytes: seq<Byte>, ref: Json)
      requires Consistent() && Injective(env.epoch.sha)
      modifies this`holds, this`blobs
      ensures Consistent() && Grows(old(Now()), Now())
      ensures holds == old(holds) + [ref]
      ensures blobs.utf8 == old(blobs.utf8) && env.epoch.sha(bytes) in blobs.attachments
      ensures blobs.attachments[env.epoch.sha(bytes)] == bytes
    {
      hide TextsKnown, DigestsKnown, ImagesKnown, ImageDigestsKnown, Injective;
      ghost var before := Now();
      StoringKeeps(env, blobs.attachments, bytes);
      holds := holds + [ref];
      blobs := blobs.(attachments := blobs.attachments[env.epoch.sha(bytes) := bytes]);
      TextsStayKnown(env, limits, textByIdentity, before, Now());
      DigestsStayKnown(env, utf8ByDigest, before, Now());
      ImagesStayKnown(env, limits, byInlineIdentity, before, Now());
      ImageDigestsStayKnown(env, byDigest, admittedAs, before, Now());
    }

    /** `acquireExactUtf8Content`: one hold per digest and frame, the second use takes none. */
    method AcquireUtf8(bytes: seq<Byte>) returns (ref: Option<Json>)
      requires Consistent() && Running() && Injective(env.epoch.sha)
      modifies this`holds, this`blobs, this`utf8ByDigest, this`interrupted
      ensures Consistent() && Grows(old(Now()), Now())
      ensures ref.Some? <==> Running()
      ensures ref.Some? ==> ref.value == ContentRefJson(env, bytes) && Secured(env, Now(), bytes)
      ensures ref.Some? && old(Counted()) ==> Counted()
      ensures env.epoch.sha(bytes) in old(utf8ByDigest) ==> ref.Some? && holds == old(holds)
    {
      hide ContentRefJson, TextsKnown, ImagesKnown, ImageDigestsKnown, Faithful, Grows;
      GrowsFromStart(Now());
      var digest := env.epoch.sha(bytes);
      if digest in utf8ByDigest {
        assert blobs.utf8[digest] == bytes by { StoredAsIs(env, blobs, bytes); }
        return Some(utf8ByDigest[digest]);
      }
      var available := *;
      if !available {
        interrupted := true;
        return None;
      }
      TakeUtf8(bytes);
      var aborted := *;
      if aborted {
        interrupted := true;
        return None;
      }
      var computed := ContentRefJson(env, bytes);
      utf8ByDigest := utf8ByDigest[digest := computed];
      return Some(computed);
    }

    /** `externalizeTextRoot`: from the memo or afresh. */
    method ExternalizeText(s: Text) returns (r: Option<Json>)
      requires Consistent() && Running() && Injective(env.epoch.sha)
      modifies this`holds, this`blobs, this`utf8ByDigest, this`textByIdentity, this`interrupted
      ensures Consistent() && Grows(old(Now()), Now())
      ensures r.Some? <==> |Encode(s)| <= limits.maxContentBytes && Running()
      ensures r.Some? ==> r.value == TextProduct(env, Str(s)) && Secured(env, Now(), Encode(s))
      ensures r.Some? && old(Counted()) ==> Counted()
    {
      hide Encode, ContentRefJson, Joined, TextsKnown, DigestsKnown, ImagesKnown, ImageDigestsKnown, Faithful, Grows,
        Secured, TextProduct, Wrapped;
      GrowsFromStart(Now());
      if s in textByIdentity {
        TextIsKnown(env, limits, textByIdentity, Now(), s);
        return Some(textByIdentity[s]);
      }
      var chunks := PrepareText(s, limits.maxContentBytes);
      if chunks.None? { return None; }
      var bytes := Join(chunks.value);
      if |bytes| < env.threshold {
        r := Some(Str(s));
      } else {
        var ref := AcquireUtf8(bytes);
        if ref.None? { return None; }
        r := Some(Wrapped("external_text", "ref", ref.value));
      }
      TextMeans(env, Now(), s);
      TextBecomesKnown(env, limits, textByIdentity, Now(), s);
      textByIdentity := textByIdentity[s := r.value];
    }

    /** `externalizeJsonRoot`. */
    method ExternalizeJson(v: Json) returns (r: Option<Json>)
      requires Consistent() && Running() && Injective(env.epoch.sha) && Numerals(v)
      modifies this`holds, this`blobs, this`utf8ByDigest, this`interrupted
      ensures Consistent() && Grows(old(Now()), Now())
      ensures r.Some? ==> r.value == JsonProduct(env, v) && SecuredJson(env, limits, Now(), v)
      ensures r.Some? && old(Counted()) ==> Counted()
      ensures r.Some? <==> Admitted(v) && |Encode(JsonText(v))| <= limits.maxContentBytes && Running()
    {
      hide Encode, JsonText, ContentRefJson, Joined, Numerals, Admitted, Valid, TextsKnown, DigestsKnown, ImagesKnown,
        Faithful;
      var chunks := PrepareJson(v, limits.maxContentBytes);
      if chunks.None? { return None; }
      AdmittedIsValid(v);
      var bytes := Join(chunks.value);
      if |bytes| < env.threshold { return Some(Wrapped("inline_json", "value", v)); }
      var ref := AcquireUtf8(bytes);
      if ref.None? { return None; }
      return Some(Wrapped("external_json", "ref", ref.value));
    }

    /** `externalizeImage`. */
    method ExternalizeImage(v: Json) returns (r: Option<Json>)
      requires Consistent() && Running() && Injective(env.epoch.sha) && RawImage(v)
      modifies this`holds, this`blobs, this`byDigest, this`byInlineIdentity, this`interrupted, this`admittedAs
      ensures Consistent() && Grows(old(Now()), Now())
      ensures r.Some? ==>
        r.value == ImageProduct(env.epoch, v) && SecuredImage(env, limits, Now(), MimeOf(v), ImageData(v))
      ensures r.Some? && old(Counted()) ==> Counted()
      ensures r.Some? <==> ImageAdmitted(limits, MimeOf(v), ImageData(v)) && Running()
    {
      hide AttachmentRefJson, TextsKnown, DigestsKnown, ImagesKnown, ImageDigestsKnown, Faithful, Decode64,
        CanonicalLength, ImageBlock, ImageProduct, RawImage, ImageData, MimeOf, SecuredImage, ImageAdmitted, Grows;
      var data, mediaType := ImageData(v), MimeOf(v);
      ImageMeans(env, v);
      GrowsFromStart(Now());
      if (mediaType, data) in byInlineIdentity {
        ImageIsKnown(env, limits, byInlineIdentity, Now(), mediaType, data);
        return Some(ImageBlock(byInlineIdentity[(mediaType, data)], Str(mediaType)));
      }
      var ref := AcquireImage(mediaType, data);
      if ref.None? { return None; }
      ImageBecomesKnown(env, limits, byInlineIdentity, Now(), mediaType, data);
      byInlineIdentity := byInlineIdentity[(mediaType, data) := ref.value];
      return Some(ImageBlock(ref.value, Str(mediaType)));
    }

    /** The part of it past the inline memo: limits, raster admission, digest memo, store. The source also
        fails when the reference in the memo is not the computed one; that it always is follows from
        the raster admission before it. */
    method AcquireImage(mediaType: Text, data: Text) returns (ref: Option<Json>)
      requires Consistent() && Running() && Injective(env.epoch.sha) && CanonicalLength(data).Some?
      modifies this`holds, this`blobs, this`byDigest, this`interrupted, this`admittedAs
      ensures Consistent() && Grows(old(Now()), Now())
      ensures ref.Some? ==> ref.value == AttachmentRefJson(env.epoch, Decode64(data), Str(mediaType))
      ensures ref.Some? ==> SecuredImage(env, limits, Now(), mediaType, data)
      ensures ref.Some? && old(Counted()) ==> Counted()
      ensures ref.Some? <==> ImageAdmitted(limits, mediaType, data) && Running()
      ensures env.epoch.sha(Decode64(data)) in old(byDigest) && ImageAdmitted(limits, mediaType, data) ==>
        ref.Some? && holds == old(holds) && ref.value == old(byDigest)[env.epoch.sha(Decode64(data))]
    {
      hide AttachmentRefJson, TextsKnown, DigestsKnown, ImagesKnown, ImageDigestsKnown, Faithful, Decode64,
        CanonicalLength, RasterOf, Grows;
      GrowsFromStart(Now());
      var ok := AdmitImage(limits, mediaType, data);
      if !ok { return None; }
      var decoded := Decode64(data);
      var digest := env.epoch.sha(decoded);
      var computed := AttachmentRefJson(env.epoch, decoded, Str(mediaType));
      if digest in byDigest {
        SameReference(env, limits, byDigest, admittedAs, Now(), mediaType, data);
        ImageDigestIsKnown(env, byDigest, admittedAs, Now(), digest);
        return Some(byDigest[digest]);
      }
      var available := *;
      if !available {
        interrupted := true;
        return None;
      }
      TakeAttachment(decoded, computed);
      var aborted := *;
      if aborted {
        interrupted := true;
        return None;
      }
      ImageDigestBecomesKnown(env, byDigest, admittedAs, Now(), decoded, mediaType);
      byDigest, admittedAs := byDigest[digest := computed], admittedAs[digest := mediaType];
      return Some(computed);
    }

    // -------------------------------------------------------------- the traversal

    /** Root by root in the order of the analyzer's walk: on success the frame is rebuilt, and all its
        content is stored and held. */
    method ExternalizeValue(schema: Schema, v: Json) returns (r: Option<Json>)
      requires Consistent() && Running() && Injective(env.epoch.sha) && Numerals(v)
      modifies this
      ensures Consistent() && Grows(old(Now()), Now())
      ensures r.Some? ==>
        r.value == Walk(schema, v, Products(env)) && AllRoots(schema, v, SecuredRoots(env, limits, Now()))
      ensures r.Some? <==> AllRoots(schema, v, Admissible(limits)) && Running()
      ensures r.Some? && old(Counted()) ==> Counted()
      decreases v, 1
    {
      hide *;
      if schema == TextRoot || schema == JsonRoot || schema == Ordinary || IsImage(schema, v) {
        r := ExternalizeRoot(schema, v);
        return;
      }
      WalkUnfolds(schema, v, Products(env));
      GrowsFromStart(Now());
      match v
      case Arr(items) =>
        var parts := ExternalizeItems(ItemSchema(schema), v);
        RootsUnfold(schema, v, SecuredRoots(env, limits, Now()));
        RootsUnfold(schema, v, Admissible(limits));
        if parts.None? { return None; }
        return Some(Arr(parts.value));
      case Obj(fields) =>
        var parts := ExternalizeFields(schema, v);
        RootsUnfold(schema, v, SecuredRoots(env, limits, Now()));
        RootsUnfold(schema, v, Admissible(limits));
        if parts.None? { return None; }
        return Some(Obj(parts.value));
      case _ =>
        RootsUnfold(schema, v, SecuredRoots(env, limits, Now()));
        RootsUnfold(schema, v, Admissible(limits));
        return Some(v);
    }

    /** Roots that the raw guards do not let through end the run. */
    method ExternalizeRoot(schema: Schema, v: Json) returns (r: Option<Json>)
      requires Consistent() && Running() && Injective(env.epoch.sha) && Numerals(v)
      requires schema == TextRoot || schema == JsonRoot || schema == Ordinary || IsImage(schema, v)
      modifies this
      ensures Consistent() && Grows(old(Now()), Now())
      ensures r.Some? ==>
        r.value == Walk(schema, v, Products(env)) && AllRoots(schema, v, SecuredRoots(env, limits, Now()))
      ensures r.Some? <==> AllRoots(schema, v, Admissible(limits)) && Running()
      ensures r.Some? && old(Counted()) ==> Counted()
    {
      hide *;
      GrowsFromStart(Now());
      RootMeans(schema, v, env, limits);
      if schema == TextRoot {
        if !v.Str? { return None; }
        r := ExternalizeText(v.s);
      } else if schema == JsonRoot {
        r := ExternalizeJson(v);
      } else if schema == Ordinary {
        r := Some(v);
      } else {
        if !RawImage(v) { return None; }
        r := ExternalizeImage(v);
      }
      RootSecured(schema, v, env, limits, Now());
    }

    method ExternalizeItems(item: Schema, v: Json) returns (r: Option<seq<Json>>)
      requires Consistent() && Running() && Injective(env.epoch.sha) && Numerals(v) && v.Arr?
      modifies this
      ensures Consistent() && Grows(old(Now()), Now())
      ensures r.Some? ==> r.value == WalkItems(item, v.items, Products(env))
      ensures r.Some? ==>
        forall i :: 0 <= i < |v.items| ==> AllRoots(item, v.items[i], SecuredRoots(env, limits, Now()))
      ensures r.Some? <==>
        (forall i :: 0 <= i < |v.items| ==> AllRoots(item, v.items[i], Admissible(limits))) && Running()
      ensures r.Some? && old(Counted()) ==> Counted()
      decreases v, 0
    {
      hide *;
      var parts, index := [], 0;
      GrowsFromStart(Now());
      while index < |v.items|
        invariant 0 <= index == |parts| <= |v.items|
        invariant Consistent() && Running() && Grows(old(Now()), Now())
        invariant forall i :: 0 <= i < index ==> parts[i] == Walk(item, v.items[i], Products(env))
        invariant forall i :: 0 <= i < index ==> AllRoots(item, v.items[i], SecuredRoots(env, limits, Now()))
        invariant forall i :: 0 <= i < index ==> AllRoots(item, v.items[i], Admissible(limits))
        invariant old(Counted()) ==> Counted()
      {
        ghost var before := Now();
        NumeralsInside(v);
        var part := ExternalizeValue(item, v.items[index]);
        GrowsFrom(old(Now()), before, Now());
        if part.None? { return None; }
        forall i | 0 <= i < index ensures AllRoots(item, v.items[i], SecuredRoots(env, limits, Now())) {
          RootsStaySecured(item, v.items[i], env, limits, before, Now());
        }
        parts := parts + [part.value];
        index := index + 1;
      }
      assert parts == WalkItems(item, v.items, Products(env));
      return Some(parts);
    }

    method ExternalizeFields(schema: Schema, v: Json) returns (r: Option<seq<Field>>)
      requires Consistent() && Running() && Injective(env.epoch.sha) && Numerals(v) && v.Obj?
      modifies this
      ensures Consistent() && Grows(old(Now()), Now())
      ensures r.Some? ==> r.value == WalkFields(schema, v.fields, Products(env))
      ensures r.Some? ==> forall i :: 0 <= i < |v.fields| ==>
        AllRoots(ChildSchema(schema, v.fields, v.fields[i].key), v.fields[i].value, SecuredRoots(env, limits, Now()))
      ensures r.Some? <==> Running() && forall i :: 0 <= i < |v.fields| ==>
        AllRoots(ChildSchema(schema, v.fields, v.fields[i].key), v.fields[i].value, Admissible(limits))
      ensures r.Some? && old(Counted()) ==> Counted()
      decreases v, 0
    {
      hide *;
      var fields := v.fields;
      var parts, index := [], 0;
      GrowsFromStart(Now());
      while index < |fields|
        invariant 0 <= index == |parts| <= |fields|
        invariant Consistent() && Running() && Grows(old(Now()), Now())
        invariant forall i :: 0 <= i < index ==>
          parts[i] == Field(fields[i].key,
            Walk(ChildSchema(schema, fields, fields[i].key), fields[i].value, Products(env)))
        invariant forall i :: 0 <= i < index ==>
          AllRoots(ChildSchema(schema, fields, fields[i].key), fields[i].value, SecuredRoots(env, limits, Now()))
        invariant forall i :: 0 <= i < index ==>
          AllRoots(ChildSchema(schema, fields, fields[i].key), fields[i].value, Admissible(limits))
        invariant old(Counted()) ==> Counted()
      {
        ghost var before := Now();
        NumeralsInside(v);
        FieldSmaller(v, index);
        var part := ExternalizeValue(ChildSchema(schema, fields, fields[index].key), fields[index].value);
        GrowsFrom(old(Now()), before, Now());
        if part.None? { return None; }
        forall i | 0 <= i < index
          ensures AllRoots(ChildSchema(schema, fields, fields[i].key), fields[i].value,
            SecuredRoots(env, limits, Now()))
        {
          RootsStaySecured(ChildSchema(schema, fields, fields[i].key), fields[i].value, env, limits, before, Now());
        }
        parts := parts + [Field(fields[index].key, part.value)];
        index := index + 1;
      }
      assert parts == WalkFields(schema, fields, Products(env));
      return Some(parts);
    }
  }

  lemma GrowsFromStart(a: Taken)
    ensures Grows(a, a)
  {
  }

  lemma RootMeans(schema: Schema, v: Json, env: Env, limits: Limits)
    requires schema == TextRoot || schema == JsonRoot || schema == Ordinary || IsImage(schema, v)
    ensures schema == TextRoot ==> Walk(schema, v, Products(env)) == TextProduct(env, v)
    ensures schema == TextRoot ==>
      (AllRoots(schema, v, Admissible(limits)) <==> v.Str? && |Encode(v.s)| <= limits.maxContentBytes)
    ensures schema == JsonRoot ==> Walk(schema, v, Products(env)) == JsonProduct(env, v)
    ensures schema == JsonRoot ==>
      (AllRoots(schema, v, Admissible(limits)) <==> Admitted(v) && |Encode(JsonText(v))| <= limits.maxContentBytes)
    ensures schema == Ordinary ==> Walk(schema, v, Products(env)) == v && AllRoots(schema, v, Admissible(limits))
    ensures IsImage(schema, v) ==> Walk(schema, v, Products(env)) == ImageProduct(env.epoch, v)
    ensures IsImage(schema, v) ==>
      (AllRoots(schema, v, Admissible(limits)) <==> RawImage(v) && ImageAdmitted(limits, MimeOf(v), ImageData(v)))
    ensures v.Str? ==> Str(v.s) == v
  {
    hide TextProduct, JsonProduct, ImageProduct, RawImage, ImageAdmitted, Admitted, JsonText, Encode, Word;
  }

  lemma RootSecured(schema: Schema, v: Json, env: Env, limits: Limits, taken: Taken)
    requires schema == TextRoot || schema == JsonRoot || schema == Ordinary || IsImage(schema, v)
    ensures schema == TextRoot && v.Str? && |Encode(v.s)| <= limits.maxContentBytes && Secured(env, taken, Encode(v.s))
      ==> AllRoots(schema, v, SecuredRoots(env, limits, taken))
    ensures schema == JsonRoot && SecuredJson(env, limits, taken, v) ==>
      AllRoots(schema, v, SecuredRoots(env, limits, taken))
    ensures schema == Ordinary ==> AllRoots(schema, v, SecuredRoots(env, limits, taken))
    ensures IsImage(schema, v) && RawImage(v) && SecuredImage(env, limits, taken, MimeOf(v), ImageData(v)) ==>
      AllRoots(schema, v, SecuredRoots(env, limits, taken))
  {
    hide RawImage, Secured, SecuredImage, SecuredJson, Encode, Word;
  }

  lemma TextMeans(env: Env, taken: Taken, s: Text)
    ensures |Encode(s)| < env.threshold ==> TextProduct(env, Str(s)) == Str(s) && Secured(env, taken, Encode(s))
    ensures |Encode(s)| >= env.threshold ==>
      TextProduct(env, Str(s)) == Wrapped("external_text", "ref", ContentRefJson(env, Encode(s)))
  {
    hide Wrapped, ContentRefJson, Encode;
  }

  lemma ImageMeans(env: Env, v: Json)
    requires RawImage(v)
    ensures CanonicalLength(ImageData(v)).Some?
    ensures ImageProduct(env.epoch, v) ==
      ImageBlock(AttachmentRefJson(env.epoch, Decode64(ImageData(v)), Str(MimeOf(v))), Str(MimeOf(v)))
  {
    hide AttachmentRefJson, Decode64, CanonicalLength, ImageBlock, Word, Get;
  }

  lemma ImageBecomesKnown(env: Env, limits: Limits, images: map<(Text, Text), Json>, taken: Taken, mimeType: Text,
      data: Text)
    requires ImagesKnown(env, limits, images, taken) && SecuredImage(env, limits, taken, mimeType, data)
    ensures
      var ref := AttachmentRefJson(env.epoch, Decode64(data), Str(mimeType));
      ImagesKnown(env, limits, images[(mimeType, data) := ref], taken)
  {
    hide AttachmentRefJson, Decode64, SecuredImage;
  }

  lemma ImageIsKnown(env: Env, limits: Limits, images: map<(Text, Text), Json>, taken: Taken, mimeType: Text,
      data: Text)
    requires ImagesKnown(env, limits, images, taken) && (mimeType, data) in images
    ensures images[(mimeType, data)] == AttachmentRefJson(env.epoch, Decode64(data), Str(mimeType))
    ensures SecuredImage(env, limits, taken, mimeType, data) && ImageAdmitted(limits, mimeType, data)
  {
    hide AttachmentRefJson, Decode64, ImageAdmitted;
  }

  lemma ImageDigestIsKnown(env: Env, digests: map<Text, Json>, admittedAs: map<Text, Text>, taken: Taken, d: Text)
    requires ImageDigestsKnown(env, digests, admittedAs, taken) && d in digests
    ensures d in taken.blobs.attachments && digests[d] in taken.holds
  {
    hide AttachmentRefJson, RasterOf;
  }

  lemma ImageDigestBecomesKnown(env: Env, digests: map<Text, Json>, admittedAs: map<Text, Text>, taken: Taken,
      bytes: seq<Byte>, mimeType: Text)
    requires ImageDigestsKnown(env, digests, admittedAs, taken) && RasterOf(mimeType, bytes)
    requires env.epoch.sha(bytes) in taken.blobs.attachments
    requires taken.blobs.attachments[env.epoch.sha(bytes)] == bytes
    requires AttachmentRefJson(env.epoch, bytes, Str(mimeType)) in taken.holds
    ensures var d := env.epoch.sha(bytes);
      var ref := AttachmentRefJson(env.epoch, bytes, Str(mimeType));
      ImageDigestsKnown(env, digests[d := ref], admittedAs[d := mimeType], taken)
  {
    hide AttachmentRefJson, RasterOf;
  }

  lemma TextBecomesKnown(env: Env, limits: Limits, texts: map<Text, Json>, taken: Taken, s: Text)
    requires TextsKnown(env, limits, texts, taken) && |Encode(s)| <= limits.maxContentBytes
    requires Secured(env, taken, Encode(s))
    ensures TextsKnown(env, limits, texts[s := TextProduct(env, Str(s))], taken)
  {
    hide TextProduct, Secured, Encode;
  }

  lemma TextIsKnown(env: Env, limits: Limits, texts: map<Text, Json>, taken: Taken, s: Text)
    requires TextsKnown(env, limits, texts, taken) && s in texts
    ensures texts[s] == TextProduct(env, Str(s)) && |Encode(s)| <= limits.maxContentBytes
    ensures Secured(env, taken, Encode(s))
  {
    hide TextProduct, Secured, Encode;
  }

  lemma NumeralsInside(v: Json)
    requires Numerals(v)
    ensures v.Arr? ==> forall i :: 0 <= i < |v.items| ==> Numerals(v.items[i])
    ensures v.Obj? ==> forall i :: 0 <= i < |v.fields| ==> Numerals(v.fields[i].value)
  {
  }

  lemma StoredAsIs(env: Env, blobs: Blobs, bytes: seq<Byte>)
    requires Injective(env.epoch.sha) && Faithful(env, blobs) && env.epoch.sha(bytes) in blobs.utf8
    ensures blobs.utf8[env.epoch.sha(bytes)] == bytes
  {
  }

  /** What the codec admits is what `JSON.parse` can produce. */
  lemma {:induction false} ShapedIsValid(v: Json, depth: nat)
    requires Numerals(v) && Shaped(v, depth)
    ensures Valid(v)
    decreases v
  {
    match v
    case Arr(items) => forall i | 0 <= i < |items| ensures Valid(items[i]) { ShapedIsValid(items[i], depth + 1); }
    case Obj(fields) =>
      forall i | 0 <= i < |fields| ensures Valid(fields[i].value) {
        FieldSmaller(v, i);
        ShapedIsValid(fields[i].value, depth + 1);
      }
    case _ =>
  }

  lemma AdmittedIsValid(v: Json)
    requires Numerals(v) && Admitted(v)
    ensures Valid(v)
  {
    ShapedIsValid(v, 0);
  }

  /** The length check and the raster check of one decoded image, pushed in one piece. */
  method AdmitImage(limits: Limits, mediaType: Text, data: Text) returns (ok: bool)
    requires CanonicalLength(data).Some?
    ensures ok <==> ImageAdmitted(limits, mediaType, data)
  {
    hide CanonicalLength, Decode64, MediaTypeOf, Raster.Admitted, Raster.RasterAdmissionValidator.Valid,
      Raster.RasterAdmissionValidator.Footprint;
    AcceptedIsCanonical(data);
    var decodedLength := CanonicalLength(data).value;
    if decodedLength > limits.maxDecodedBytes || decodedLength > limits.maxBlobBytes { return false; }
    var rule := MediaTypeOf(mediaType);
    if rule.None? { return false; }
    if decodedLength < Raster.MinimumBytes(rule.value) {
      TooShort(rule.value, Decode64(data));
      return false;
    }
    var raster := new Raster.RasterAdmissionValidator(rule.value, decodedLength);
    raster.Push(Decode64(data));
    assert [] + Decode64(data) == Decode64(data);
    var error := raster.Finish();
    return error.None?;
  }

  lemma TooShort(m: Raster.MediaType, file: seq<Byte>)
    requires |file| < Raster.MinimumBytes(m)
    ensures !Raster.Admitted(m, file, |file|)
  {
  }

  /** Hashing and counting run over the chunks in order. */
  method Join(chunks: seq<seq<Byte>>) returns (bytes: seq<Byte>)
    ensures bytes == Joined(chunks)
  {
    bytes := [];
    var i := 0;
    while i < |chunks|
      invariant 0 <= i <= |chunks| && bytes == Joined(chunks[..i])
    {
      assert chunks[..i + 1][..i] == chunks[..i];
      bytes := bytes + chunks[i];
      i := i + 1;
    }
    assert chunks[..|chunks|] == chunks;
  }

  /** The guard that the caller may add. */
  predicate Accepts(supplemental: Option<Json -> bool>, product: Json) {
    supplemental.Some? ==> supplemental.value(product)
  }

  /** `externalizePiPayload` on a frame that passed the raw guards: the product and the references of the
      holds that go with it, or nothing. It succeeds if and only if every root is admissible, the frame is
      within the ceilings of the product guard, the caller's own guard accepts the product, and nothing
      interrupted the run. The product is the externalized frame; each of its roots passes its guard and
      all its content is stored and held, one hold for each; and it reads back as the frame, save for what
      no product can bring back. */
  method ExternalizeFrame(kind: FrameKind, v: Json, env: Env, limits: Limits, supplemental: Option<Json -> bool>)
    returns (r: Option<Json>, lease: seq<Json>, state: FrameState)
    requires RawFrame(kind, v) && Numerals(v) && Injective(env.epoch.sha) && env.threshold <= GUARD_STRING_BYTES
    ensures r.Some? <==>
      && AllRoots(SchemaOf(kind), v, Admissible(limits)) && WithinCeilings(kind, v, env, limits)
      && Accepts(supplemental, Externalized(kind, v, env)) && state.Running()
    ensures r.Some? ==> r.value == Externalized(kind, v, env)
    ensures r.Some? ==> AllRoots(SchemaOf(kind), v, SecuredRoots(env, limits, Taken(state.blobs, lease)))
    ensures r.Some? ==> |lease| == |state.utf8ByDigest| + |state.byDigest|
    ensures r.Some? ==> AllRoots(SchemaOf(kind), r.value, Guarded(env))
    ensures r.Some? ==> Walk(SchemaOf(kind), r.value, Hydration(state.blobs)) == Walk(SchemaOf(kind), v, Recovered(env))
    ensures r.Some? ==>
      (Walk(SchemaOf(kind), r.value, Hydration(state.blobs)) == v <==> AllRoots(SchemaOf(kind), v, Exact(env)))
    ensures r.None? ==> lease == []
  {
    hide *;
    state := new FrameState(env, limits);
    r := state.ExternalizeValue(SchemaOf(kind), v);
    if r.None? { return None, [], state; }
    var aborted := *;
    if aborted {
      state.interrupted := true;
      InterruptedStops(state);
      return None, [], state;
    }
    ExternalizedIsWalk(kind, v, env);
    ProductGuardIff(kind, v, env, limits);
    var guarded := ProductGuard(kind, GuardShadow(kind, v, env), env.epoch, limits);
    if !guarded || !Accepts(supplemental, r.value) { return None, [], state; }
    lease := state.holds;
    TakenNow(state);
    SecuredIsStored(SchemaOf(kind), v, env, limits, state.Now());
    SecuredIsEncodable(SchemaOf(kind), v, env, limits, state.Now());
    FrameRoundTrip(kind, v, env, state.blobs);
    FramePasses(kind, v, env);
  }

  lemma InterruptedStops(state: FrameState)
    requires state.interrupted
    ensures !state.Running()
  {
  }

  lemma TakenNow(state: FrameState)
    requires state.Consistent()
    ensures state.Now() == Taken(state.blobs, state.holds) && Faithful(state.env, state.blobs)
    ensures state.Counted() <==> |state.holds| == |state.utf8ByDigest| + |state.byDigest|
  {
    hide TextsKnown, DigestsKnown, ImagesKnown, ImageDigestsKnown, Faithful;
  }

  lemma SecuredIsEncodable(schema: Schema, v: Json, env: Env, limits: Limits, taken: Taken)
    requires AllRoots(schema, v, SecuredRoots(env, limits, taken))
    ensures AllRoots(schema, v, Encodable(env))
  {
    hide AllRoots, Walk, RawImage, Admitted, Valid, JsonText, Encode, KeepsImage, Numerals, Secured, SecuredImage;
    var p := SecuredRoots(env, limits, taken);
    forall x | p.image(x) ensures KeepsImage(x) { RawImageKept(x); }
    WalkedRoots(schema, v, Identity(), p, Encodable(env));
    WalkIdentity(schema, v);
  }
}
