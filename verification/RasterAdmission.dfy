/** Admission of image attachments: the container type is checked while the bytes pass by, in chunks of any
    size, and without keeping them. */
module RasterAdmission {
  import opened Prelude
  import opened Utf8
  import opened LineSplit
  import opened RiffGrammar

  datatype MediaType = Gif | Jpeg | Png | Webp

  datatype AdmissionError = InvalidMagic | InvalidStructure | TruncatedHeader

  // ---------------------------------------------------------------- what is admitted

  function MinimumBytes(m: MediaType): nat {
    match m case Png => 24 case Jpeg => 6 case Webp => 20 case Gif => 13
  }

  function PrefixBytes(m: MediaType): nat {
    match m case Png => 24 case Jpeg => 4 case Webp => 20 case Gif => 13
  }

  predicate Nonzero(b: seq<Byte>) { exists k :: 0 <= k < |b| && b[k] != 0 }

  /** The first bytes announce the media type. */
  predicate Matches(m: MediaType, prefix: seq<Byte>, byteLength: nat)
    requires |prefix| == PrefixBytes(m)
  {
    match m
    case Png =>
      && byteLength >= 33
      && prefix[..8] == [0x89, 0x50, 0x4e, 0x47, 0x0d, 0x0a, 0x1a, 0x0a]
      && prefix[8..12] == [0, 0, 0, 13]
      && prefix[12..16] == [0x49, 0x48, 0x44, 0x52]
      && Nonzero(prefix[16..20]) && Nonzero(prefix[20..24])
    case Jpeg =>
      && byteLength >= 6
      && prefix[0] == 0xff && prefix[1] == 0xd8 && prefix[2] == 0xff
      && prefix[3] != 0x00 && prefix[3] != 0xd8 && prefix[3] != 0xd9
    case Webp =>
      && byteLength >= 20
      && prefix[..4] == [0x52, 0x49, 0x46, 0x46]
      && prefix[8..12] == [0x57, 0x45, 0x42, 0x50]
      && (prefix[12..16] == [0x56, 0x50, 0x38, 0x20] || prefix[12..16] == [0x56, 0x50, 0x38, 0x4c]
          || prefix[12..16] == [0x56, 0x50, 0x38, 0x58])
    case Gif =>
      && (prefix[..6] == [0x47, 0x49, 0x46, 0x38, 0x37, 0x61] || prefix[..6] == [0x47, 0x49, 0x46, 0x38, 0x39, 0x61])
      && Nonzero(prefix[6..8]) && Nonzero(prefix[8..10])
  }

  /** The window at the end that is looked at, and what it has to begin with. */
  function TailBytes(m: MediaType): nat
    requires m != Webp
  {
    match m case Png => 12 case Jpeg => 2 case Gif => 1
  }

  function TailMark(m: MediaType): seq<Byte>
    requires m != Webp
  {
    match m
    case Png => [0x00, 0x00, 0x00, 0x00, 0x49, 0x45, 0x4e, 0x44]
    case Jpeg => [0xff, 0xd9]
    case Gif => [0x3b]
  }

  predicate EndsWell(m: MediaType, file: seq<Byte>)
    requires m != Webp
  {
    && TailBytes(m) <= |file|
    && var tail := file[|file| - TailBytes(m)..];
       tail[..|TailMark(m)|] == TailMark(m)
  }

  lemma MarkFits(m: MediaType)
    requires m != Webp
    ensures 0 < |TailMark(m)| <= TailBytes(m)
  {
  }

  /** Whole files that are admitted under a declared length. */
  predicate Admitted(m: MediaType, file: seq<Byte>, byteLength: nat) {
    && MinimumBytes(m) <= byteLength
    && PrefixBytes(m) <= |file|
    && Matches(m, file[..PrefixBytes(m)], byteLength)
    && (if m == Webp then IsWebp(file, byteLength) else EndsWell(m, file))
  }

  // ---------------------------------------------------------------- the tail window

  /** The last bytes of everything pushed, in an array of fixed size that is updated in place. */
  class TailValidator {
    const tail: array<Byte>
    const mark: seq<Byte>
    var seen: nat
    ghost var pushed: seq<Byte>

    ghost predicate Valid()
      reads this, tail
    {
      && 0 < |mark| <= tail.Length
      && seen == |pushed|
      && tail[..|LastOf(pushed, tail.Length)|] == LastOf(pushed, tail.Length)
    }

    constructor (mark: seq<Byte>, tailBytes: nat)
      requires 0 < |mark| <= tailBytes
      ensures Valid() && pushed == [] && this.mark == mark && tail.Length == tailBytes && fresh(tail)
    {
      tail := new Byte[tailBytes](_ => 0);
      this.mark := mark;
      seen, pushed := 0, [];
      new;
      assert tail[..0] == [] && LastOf([], tailBytes) == [];
    }

    /** Keeps the last `retained` of the `filled` bytes, moved to the front of the same array. */
    method MoveDown(filled: nat, retained: nat)
      requires retained <= filled <= tail.Length
      modifies tail
      ensures tail[..retained] == old(tail[filled - retained..filled])
    {
      forall k | 0 <= k < retained { tail[k] := tail[filled - retained + k]; }
    }

    method PutAt(at: nat, chunk: seq<Byte>)
      requires at + |chunk| <= tail.Length
      modifies tail
      ensures tail[..at + |chunk|] == old(tail[..at]) + chunk
    {
      forall k | 0 <= k < |chunk| { tail[at + k] := chunk[k]; }
    }

    method Push(chunk: seq<Byte>)
      requires Valid()
      modifies this, tail
      ensures Valid() && pushed == old(pushed) + chunk
    {
      hide LastOf;
      if |chunk| >= tail.Length {
        PutAt(0, chunk[|chunk| - tail.Length..]);
        EndOfConcat(pushed, chunk, tail.Length);
        assert [] + chunk[|chunk| - tail.Length..] == chunk[|chunk| - tail.Length..];
      } else {
        var filled := if seen < tail.Length then seen else tail.Length;
        var retained := if filled < tail.Length - |chunk| then filled else tail.Length - |chunk|;
        Slid(pushed, chunk, tail.Length, filled, retained);
        Slide(filled, retained, chunk);
      }
      seen := seen + |chunk|;
      pushed := pushed + chunk;
    }

    /** The retained bytes first, then the chunk. */
    method Slide(filled: nat, retained: nat, chunk: seq<Byte>)
      requires retained <= filled <= tail.Length && retained + |chunk| <= tail.Length
      modifies tail
      ensures tail[..retained + |chunk|] == old(tail[..filled])[filled - retained..] + chunk
    {
      assert tail[filled - retained..filled] == tail[..filled][filled - retained..];
      MoveDown(filled, retained);
      PutAt(retained, chunk);
    }

    method Finish() returns (ok: bool)
      requires Valid()
      ensures ok <==> tail.Length <= |pushed| && pushed[|pushed| - tail.Length..][..|mark|] == mark
    {
      if seen < tail.Length { return false; }
      assert tail[..tail.Length] == tail[..];
      ok := tail[..|mark|] == mark;
      assert tail[..|mark|] == tail[..][..|mark|];
    }
  }

  /** The last `n` bytes, or all of them. */
  function LastOf(b: seq<Byte>, n: nat): (r: seq<Byte>)
    ensures |r| == if |b| < n then |b| else n
  {
    if |b| < n then b else b[|b| - n..]
  }

  lemma EndOfConcat(a: seq<Byte>, b: seq<Byte>, n: nat)
    requires n <= |b|
    ensures LastOf(a + b, n) == b[|b| - n..]
  {
  }

  lemma Slid(pushed: seq<Byte>, chunk: seq<Byte>, n: nat, filled: nat, retained: nat)
    requires |chunk| < n && filled == |LastOf(pushed, n)|
    requires retained == if filled < n - |chunk| then filled else n - |chunk|
    ensures LastOf(pushed, n)[filled - retained..] + chunk == LastOf(pushed + chunk, n)
  {
  }

  // ---------------------------------------------------------------- the WebP container

  class WebpContainerValidator {
    var offset: nat
    const chunkHeader: array<Byte>
    var chunkHeaderOffset: nat
    var chunkRemaining: nat
    var chunkNeedsPadding: bool
    var paddingPending: bool
    const byteLength: nat
    const declaredRiffSize: nat

    ghost predicate Valid()
      reads this
    {
      chunkHeader.Length == 8 && chunkHeaderOffset < 8
    }

    ghost function Now(): (p: Progress)
      requires Valid()
      reads this, chunkHeader
      ensures Sound(p) && !p.failed
    {
      Progress(offset, chunkHeader[..chunkHeaderOffset], chunkRemaining, chunkNeedsPadding, paddingPending, false)
    }

    constructor (prefix: seq<Byte>, byteLength: nat)
      requires |prefix| >= 8
      ensures Valid() && Now() == BEGIN && fresh(chunkHeader)
      ensures this.byteLength == byteLength && declaredRiffSize == Le32(prefix[4..8])
    {
      offset, chunkHeaderOffset, chunkRemaining, chunkNeedsPadding, paddingPending := 0, 0, 0, false, false;
      chunkHeader := new Byte[8](_ => 0);
      this.byteLength := byteLength;
      declaredRiffSize := Le32(prefix[4..8]);
    }

    method PushByte(byte: Byte) returns (ok: bool)
      requires Valid()
      modifies this, chunkHeader
      ensures Valid()
      ensures ok <==> !Feed(old(Now()), byte, byteLength).failed
      ensures ok ==> Now() == Feed(old(Now()), byte, byteLength)
    {
      ok := true;
      var position := offset;
      offset := offset + 1;
      if position < 12 { return; }
      if paddingPending {
        paddingPending := false;
        return;
      }
      if chunkRemaining > 0 {
        chunkRemaining := chunkRemaining - 1;
        if chunkRemaining == 0 { paddingPending := chunkNeedsPadding; }
        return;
      }
      ghost var header := chunkHeader[..chunkHeaderOffset];
      chunkHeader[chunkHeaderOffset] := byte;
      chunkHeaderOffset := chunkHeaderOffset + 1;
      assert chunkHeader[..chunkHeaderOffset] == header + [byte];
      if chunkHeaderOffset != 8 { return; }
      chunkHeaderOffset := 0;
      var chunkSize := Le32(chunkHeader[4..8]);
      assert chunkHeader[4..8] == (header + [byte])[4..8];
      var paddedSize := chunkSize + chunkSize % 2;
      if paddedSize > byteLength - offset { return false; }
      chunkRemaining := chunkSize;
      chunkNeedsPadding := chunkSize % 2 != 0;
    }

    method Push(chunk: seq<Byte>) returns (ok: bool)
      requires Valid()
      modifies this, chunkHeader
      ensures Valid()
      ensures ok <==> !FeedAll(old(Now()), chunk, byteLength).failed
      ensures ok ==> Now() == FeedAll(old(Now()), chunk, byteLength)
    {
      ghost var start := Now();
      for i := 0 to |chunk|
        invariant Valid()
        invariant Now() == FeedAll(start, chunk[..i], byteLength)
      {
        assert chunk[..i + 1] == chunk[..i] + [chunk[i]];
        assert chunk == chunk[..i + 1] + chunk[i + 1..];
        FeedConcat(start, chunk[..i], [chunk[i]], byteLength);
        FeedConcat(start, chunk[..i + 1], chunk[i + 1..], byteLength);
        FeedOne(Now(), chunk[i], byteLength);
        ghost var before := Now();
        var fine := PushByte(chunk[i]);
        if !fine {
          FailedStays(Feed(before, chunk[i], byteLength), chunk[i + 1..], byteLength);
          return false;
        }
      }
      assert chunk[..|chunk|] == chunk;
      ok := true;
    }

    method Finish() returns (ok: bool)
      requires Valid()
      ensures ok <==> Finished(Now(), declaredRiffSize, byteLength)
    {
      ok := declaredRiffSize == byteLength - 8 && offset == byteLength && chunkHeaderOffset == 0 &&
        chunkRemaining == 0 && !paddingPending;
    }
  }

  lemma FeedOne(p: Progress, byte: Byte, byteLength: nat)
    requires Sound(p)
    ensures FeedAll(p, [byte], byteLength) == Feed(p, byte, byteLength)
  {
    var rest := [byte][1..];
    assert rest == [];
  }

  // ---------------------------------------------------------------- the validator

  /** The prefix is collected first; then a container validator sees all the bytes, the prefix included. */
  class RasterAdmissionValidator {
    const mediaType: MediaType
    const byteLength: nat
    const prefix: array<Byte>
    var prefixOffset: nat
    var failure: Option<AdmissionError>
    var webp: WebpContainerValidator?
    var tail: TailValidator?
    ghost var received: seq<Byte>

    predicate Started()
      reads this
    {
      webp != null || tail != null
    }

    ghost function Footprint(): set<object>
      reads this, webp, tail
    {
      {this, prefix} + (if webp != null then {webp, webp.chunkHeader} else {}) +
        (if tail != null then {tail, tail.tail} else {})
    }

    ghost predicate Collecting()
      reads this, prefix
    {
      && prefixOffset == |received| < prefix.Length
      && prefix[..prefixOffset] == received
    }

    ghost predicate Checking()
      reads this, webp, tail, if tail != null then {tail.tail} else {}, if webp != null then {webp.chunkHeader} else {}
    {
      && PrefixBytes(mediaType) <= |received|
      && Matches(mediaType, received[..PrefixBytes(mediaType)], byteLength)
      && if mediaType == Webp then
           && webp != null && tail == null && webp.Valid() && webp.byteLength == byteLength
           && webp.declaredRiffSize == Le32(received[4..8])
           && webp.Now() == FeedAll(BEGIN, received, byteLength)
         else
           && webp == null && tail != null && tail.Valid() && tail.pushed == received
           && tail.mark == TailMark(mediaType) && tail.tail.Length == TailBytes(mediaType)
    }

    /** What failed cannot be admitted any more, whatever follows. */
    ghost predicate Hopeless()
      reads this
    {
      forall more :: !Admitted(mediaType, received + more, byteLength)
    }

    ghost predicate Valid()
      reads this, prefix, webp, tail, if tail != null then {tail.tail} else {},
        if webp != null then {webp.chunkHeader} else {}
    {
      && prefix.Length == PrefixBytes(mediaType) && MinimumBytes(mediaType) <= byteLength
      && (webp != null ==> webp.chunkHeader != prefix)
      && (tail != null ==> tail.tail != prefix)
      && if failure.Some? then Hopeless()
         else if Started() then Checking()
         else Collecting()
    }

    /** `createRasterAdmissionValidator` for a length that is not too small. */
    constructor (mediaType: MediaType, byteLength: nat)
      requires MinimumBytes(mediaType) <= byteLength
      ensures Valid() && received == [] && this.mediaType == mediaType && this.byteLength == byteLength
      ensures fresh(Footprint())
    {
      this.mediaType, this.byteLength := mediaType, byteLength;
      prefix := new Byte[PrefixBytes(mediaType)](_ => 0);
      prefixOffset, failure, webp, tail, received := 0, None, null, null, [];
    }

    /** Bytes to the container validator, with their failure remembered. */
    method PushContainer(chunk: seq<Byte>)
      requires Valid() && failure.None? && Started()
      modifies Footprint()
      ensures Valid() && received == old(received) + chunk
      ensures Footprint() == old(Footprint())
    {
      ghost var before := received;
      if webp != null {
        FeedConcat(BEGIN, received, chunk, byteLength);
        var ok := webp.Push(chunk);
        received := received + chunk;
        assert received[4..8] == before[4..8] && received[..prefix.Length] == before[..prefix.Length];
        if !ok {
          failure := Some(InvalidStructure);
          forall more ensures !Admitted(mediaType, received + more, byteLength) {
            FailedFileIsNoWebp(received, more, byteLength);
          }
        }
      } else {
        tail.Push(chunk);
        received := received + chunk;
        assert received[..prefix.Length] == before[..prefix.Length];
      }
    }

    method StartContainer()
      requires prefix.Length == PrefixBytes(mediaType) && MinimumBytes(mediaType) <= byteLength
      requires failure.None? && !Started() && prefix[..] == received && Matches(mediaType, received, byteLength)
      modifies this
      ensures Valid() && received == old(received) && fresh(Footprint() - {this, prefix})
    {
      if mediaType == Webp { StartWebp(); } else { StartTail(); }
    }

    method StartWebp()
      requires prefix.Length == PrefixBytes(mediaType) && MinimumBytes(mediaType) <= byteLength && mediaType == Webp
      requires failure.None? && !Started() && prefix[..] == received && Matches(mediaType, received, byteLength)
      modifies this
      ensures Valid() && received == old(received) && fresh(Footprint() - {this, prefix})
    {
      var whole := prefix[..];
      assert received[..PrefixBytes(mediaType)] == received;
      var container := new WebpContainerValidator(whole, byteLength);
      var ok := container.Push(whole);
      if ok {
        webp := container;
      } else {
        failure := Some(InvalidStructure);
        forall more ensures !Admitted(mediaType, received + more, byteLength) {
          FailedFileIsNoWebp(received, more, byteLength);
        }
      }
    }

    method StartTail()
      requires prefix.Length == PrefixBytes(mediaType) && MinimumBytes(mediaType) <= byteLength && mediaType != Webp
      requires failure.None? && !Started() && prefix[..] == received && Matches(mediaType, received, byteLength)
      modifies this
      ensures Valid() && received == old(received) && fresh(Footprint() - {this, prefix})
    {
      hide LastOf, Matches, FeedAll, Admitted, TailMark;
      var whole := prefix[..];
      assert received[..PrefixBytes(mediaType)] == received;
      assert 0 < |TailMark(mediaType)| <= TailBytes(mediaType) by { MarkFits(mediaType); }
      var container := new TailValidator(TailMark(mediaType), TailBytes(mediaType));
      container.Push(whole);
      assert [] + whole == whole;
      tail := container;
    }

    method Push(chunk: seq<Byte>)
      requires Valid()
      modifies Footprint()
      ensures Valid() && received == old(received) + chunk
      ensures fresh(Footprint() - old(Footprint()))
    {
      if |chunk| == 0 {
        assert received + chunk == received;
      } else if failure.Some? {
        Ignore(chunk);
      } else if Started() {
        PushContainer(chunk);
      } else {
        PushPrefix(chunk);
      }
    }

    /** After a failure nothing is looked at any more. */
    method Ignore(ghost bytes: seq<Byte>)
      requires Valid() && failure.Some?
      modifies this`received
      ensures Valid() && received == old(received) + bytes && Footprint() == old(Footprint())
    {
      forall more ensures !Admitted(mediaType, received + bytes + more, byteLength) {
        assert received + bytes + more == received + (bytes + more);
      }
      received := received + bytes;
    }

    method PushPrefix(chunk: seq<Byte>)
      requires Valid() && failure.None? && !Started() && |chunk| > 0
      modifies Footprint()
      ensures Valid() && received == old(received) + chunk
      ensures fresh(Footprint() - old(Footprint()))
    {
      var room := prefix.Length - prefixOffset;
      var copied := if |chunk| < room then |chunk| else room;
      CopyToPrefix(chunk[..copied]);
      assert chunk == chunk[..copied] + chunk[copied..];
      assert old(received) + chunk == received + chunk[copied..];
      if prefixOffset != prefix.Length {
        assert chunk[..copied] == chunk;
        return;
      }
      assert prefix[..] == received && received[..prefix.Length] == received;
      if !Matches(mediaType, prefix[..], byteLength) {
        failure := Some(InvalidMagic);
        WrongMagic(mediaType, received, chunk[copied..], byteLength);
        received := received + chunk[copied..];
        return;
      }
      StartContainer();
      if failure.None? && copied < |chunk| {
        PushContainer(chunk[copied..]);
      } else if failure.Some? {
        Ignore(chunk[copied..]);
      } else {
        assert chunk[copied..] == [];
      }
    }

    method CopyToPrefix(bytes: seq<Byte>)
      requires Collecting() && prefixOffset + |bytes| <= prefix.Length
      modifies this`prefixOffset, this`received, prefix
      ensures received == old(received) + bytes && prefixOffset == |received|
      ensures prefix[..prefixOffset] == received
    {
      forall k | 0 <= k < |bytes| { prefix[prefixOffset + k] := bytes[k]; }
      prefixOffset := prefixOffset + |bytes|;
      received := received + bytes;
    }

    /** Whatever the chunks were, the verdict is the one on the whole file. */
    method Finish() returns (error: Option<AdmissionError>)
      requires Valid()
      ensures error.None? <==> Admitted(mediaType, received, byteLength)
    {
      if failure.Some? {
        assert received + [] == received;
        return failure;
      }
      if webp == null && tail == null { return Some(TruncatedHeader); }
      var ok;
      if webp != null {
        ok := webp.Finish();
        CheckIsGrammar(received, byteLength);
      } else {
        ok := tail.Finish();
      }
      error := if ok then None else Some(InvalidStructure);
    }
  }

  lemma WrongMagic(m: MediaType, prefix: seq<Byte>, rest: seq<Byte>, byteLength: nat)
    requires |prefix| == PrefixBytes(m) && !Matches(m, prefix, byteLength)
    ensures forall more :: !Admitted(m, prefix + rest + more, byteLength)
  {
    hide Matches;
    forall more ensures !Admitted(m, prefix + rest + more, byteLength) {
      assert (prefix + rest + more)[..PrefixBytes(m)] == prefix;
    }
  }

  lemma FailedFileIsNoWebp(file: seq<Byte>, more: seq<Byte>, byteLength: nat)
    requires |file| >= 12 && FeedAll(BEGIN, file, byteLength).failed
    ensures !IsWebp(file + more, byteLength)
  {
    FeedConcat(BEGIN, file, more, byteLength);
    FailedStays(FeedAll(BEGIN, file, byteLength), more, byteLength);
    CheckIsGrammar(file + more, byteLength);
  }
}
