/** The byte-at-a-time check of a WebP container, and the recursive RIFF grammar it stands for
    (sections 2.2 and 2.3 of RFC 9649). */
module RiffGrammar {
  import opened Utf8

  function Le32(b: seq<Byte>): nat
    requires |b| == 4
  {
    b[0] as int + 0x100 * (b[1] as int) + 0x1_0000 * (b[2] as int) + 0x100_0000 * (b[3] as int)
  }

  function Padded(size: nat): nat { size + size % 2 }

  /** A sequence of chunks: four bytes of type, four of size, and the data padded to an even length. */
  predicate Chunks(b: seq<Byte>)
    decreases |b|
  {
    || b == []
    || (|b| >= 8
        && var n := Padded(Le32(b[4..8]));
           n <= |b| - 8 && Chunks(b[8 + n..]))
  }

  /** A whole WebP file of `byteLength` bytes. */
  predicate IsWebp(file: seq<Byte>, byteLength: nat) {
    && |file| == byteLength && byteLength >= 12
    && Le32(file[4..8]) == byteLength - 8
    && Chunks(file[12..])
  }

  // ---------------------------------------------------------------- the incremental check

  /** Where the validator is: `header` are the bytes of a chunk header read so far. */
  datatype Progress = Progress(offset: nat, header: seq<Byte>, remaining: nat, needsPadding: bool,
    paddingPending: bool, failed: bool)

  const BEGIN := Progress(0, [], 0, false, false, false)

  predicate Sound(p: Progress) { |p.header| < 8 }

  function Feed(p: Progress, byte: Byte, byteLength: nat): (r: Progress)
    requires Sound(p)
    ensures Sound(r)
  {
    var next := p.(offset := p.offset + 1);
    if p.failed then p
    else if p.offset < 12 then next
    else if p.paddingPending then next.(paddingPending := false)
    else if p.remaining > 0 then
      next.(remaining := p.remaining - 1, paddingPending := p.remaining == 1 && p.needsPadding)
    else
      var header := p.header + [byte];
      if |header| < 8 then next.(header := header)
      else
        var size := Le32(header[4..8]);
        if Padded(size) > byteLength - (p.offset + 1) then next.(header := [], failed := true)
        else next.(header := [], remaining := size, needsPadding := size % 2 == 1)
  }

  function FeedAll(p: Progress, bytes: seq<Byte>, byteLength: nat): (r: Progress)
    requires Sound(p)
    ensures Sound(r)
    decreases |bytes|
  {
    if bytes == [] then p else FeedAll(Feed(p, bytes[0], byteLength), bytes[1..], byteLength)
  }

  /** Between two chunks. */
  predicate Idle(p: Progress) { !p.failed && p.header == [] && p.remaining == 0 && !p.paddingPending }

  /** What `finish` accepts. */
  predicate Finished(p: Progress, riffSize: nat, byteLength: nat) {
    !p.failed && riffSize == byteLength - 8 && p.offset == byteLength && p.header == [] && p.remaining == 0 &&
      !p.paddingPending
  }

  lemma {:induction false} FeedConcat(p: Progress, a: seq<Byte>, b: seq<Byte>, byteLength: nat)
    requires Sound(p)
    ensures FeedAll(p, a + b, byteLength) == FeedAll(FeedAll(p, a, byteLength), b, byteLength)
    decreases |a|
  {
    if a == [] {
      assert a + b == b;
    } else {
      assert (a + b)[0] == a[0] && (a + b)[1..] == a[1..] + b;
      FeedConcat(Feed(p, a[0], byteLength), a[1..], b, byteLength);
    }
  }

  lemma {:induction false} FailedStays(p: Progress, bytes: seq<Byte>, byteLength: nat)
    requires Sound(p) && p.failed
    ensures FeedAll(p, bytes, byteLength).failed
    decreases |bytes|
  {
    if bytes != [] { FailedStays(Feed(p, bytes[0], byteLength), bytes[1..], byteLength); }
  }

  /** Every byte moves the offset until a failure. */
  lemma {:induction false} OffsetCounts(p: Progress, bytes: seq<Byte>, byteLength: nat)
    requires Sound(p)
    ensures var r := FeedAll(p, bytes, byteLength); r.failed || r.offset == p.offset + |bytes|
    decreases |bytes|
  {
    if bytes != [] {
      OffsetCounts(Feed(p, bytes[0], byteLength), bytes[1..], byteLength);
      if Feed(p, bytes[0], byteLength).failed { FailedStays(Feed(p, bytes[0], byteLength), bytes[1..], byteLength); }
    }
  }

  /** The twelve bytes of the file header are passed over. */
  lemma {:induction false} FileHeader(p: Progress, bytes: seq<Byte>, byteLength: nat)
    requires Sound(p) && !p.failed && p.offset + |bytes| <= 12
    ensures FeedAll(p, bytes, byteLength) == p.(offset := p.offset + |bytes|)
    decreases |bytes|
  {
    if bytes != [] { FileHeader(Feed(p, bytes[0], byteLength), bytes[1..], byteLength); }
  }

  /** Data and padding of one chunk. */
  lemma {:induction false} ChunkData(p: Progress, bytes: seq<Byte>, byteLength: nat)
    requires Sound(p) && !p.failed && p.offset >= 12 && p.header == [] && !p.paddingPending && |bytes| == p.remaining
    ensures FeedAll(p, bytes, byteLength) ==
      p.(offset := p.offset + |bytes|, remaining := 0, paddingPending := p.remaining > 0 && p.needsPadding)
    decreases |bytes|
  {
    if |bytes| > 1 {
      ChunkData(Feed(p, bytes[0], byteLength), bytes[1..], byteLength);
    } else if |bytes| == 1 {
      assert bytes[1..] == [];
    }
  }

  lemma {:induction false} HeaderBytes(p: Progress, bytes: seq<Byte>, byteLength: nat)
    requires !p.failed && p.offset >= 12 && p.remaining == 0 && !p.paddingPending && |p.header| + |bytes| < 8
    ensures FeedAll(p, bytes, byteLength) == p.(offset := p.offset + |bytes|, header := p.header + bytes)
    decreases |bytes|
  {
    if bytes == [] {
      assert p.header + bytes == p.header;
    } else {
      HeaderBytes(Feed(p, bytes[0], byteLength), bytes[1..], byteLength);
      assert p.header + [bytes[0]] + bytes[1..] == p.header + bytes;
    }
  }

  lemma ChunkHeader(p: Progress, bytes: seq<Byte>, byteLength: nat)
    requires Idle(p) && p.offset >= 12 && |bytes| == 8
    ensures FeedAll(p, bytes, byteLength) ==
      if Padded(Le32(bytes[4..8])) > byteLength - (p.offset + 8) then p.(offset := p.offset + 8, failed := true)
      else p.(offset := p.offset + 8, remaining := Le32(bytes[4..8]), needsPadding := Le32(bytes[4..8]) % 2 == 1)
  {
    HeaderBytes(p, bytes[..7], byteLength);
    FeedConcat(p, bytes[..7], [bytes[7]], byteLength);
    assert bytes[..7] + [bytes[7]] == bytes && p.header + bytes[..7] == bytes[..7];
    var q := FeedAll(p, bytes[..7], byteLength);
    var one := [bytes[7]];
    assert one[1..] == [];
    assert FeedAll(q, one, byteLength) == Feed(q, bytes[7], byteLength);
  }

  /** One whole chunk leads back to idle. */
  lemma WholeChunk(p: Progress, bytes: seq<Byte>, byteLength: nat)
    requires Idle(p) && p.offset >= 12 && |bytes| >= 8 && |bytes| == 8 + Padded(Le32(bytes[4..8]))
    requires p.offset + |bytes| <= byteLength
    ensures Idle(FeedAll(p, bytes, byteLength)) && FeedAll(p, bytes, byteLength).offset == p.offset + |bytes|
  {
    hide FeedAll, Feed;
    var size := Le32(bytes[4..8]);
    var head, data, pad := bytes[..8], bytes[8..8 + size], bytes[8 + size..];
    assert bytes == head + (data + pad) && head[4..8] == bytes[4..8];
    ChunkHeader(p, head, byteLength);
    var q := FeedAll(p, head, byteLength);
    FeedConcat(p, head, data + pad, byteLength);
    FeedConcat(q, data, pad, byteLength);
    ChunkData(q, data, byteLength);
    PaddingByte(FeedAll(q, data, byteLength), pad, byteLength);
  }

  lemma PaddingByte(p: Progress, pad: seq<Byte>, byteLength: nat)
    requires Sound(p) && !p.failed && p.offset >= 12 && |pad| == if p.paddingPending then 1 else 0
    ensures FeedAll(p, pad, byteLength) == p.(offset := p.offset + |pad|, paddingPending := false)
  {
    if |pad| == 1 { assert pad[1..] == []; }
  }

  /** From idle on, the check ends idle exactly when the rest of the file is a sequence of chunks. */
  lemma {:induction false} ChunksChecked(p: Progress, b: seq<Byte>, byteLength: nat)
    requires Idle(p) && p.offset >= 12 && p.offset + |b| == byteLength
    ensures Idle(FeedAll(p, b, byteLength)) <==> Chunks(b)
    decreases |b|
  {
    hide FeedAll, Feed;
    if b == [] {
      FeedNothing(p, byteLength);
    } else if |b| < 8 {
      HeaderBytes(p, b, byteLength);
    } else {
      var n := Padded(Le32(b[4..8]));
      if n > |b| - 8 {
        assert b == b[..8] + b[8..] && b[..8][4..8] == b[4..8];
        ChunkHeader(p, b[..8], byteLength);
        FeedConcat(p, b[..8], b[8..], byteLength);
        FailedStays(FeedAll(p, b[..8], byteLength), b[8..], byteLength);
      } else {
        var chunk, rest := b[..8 + n], b[8 + n..];
        assert b == chunk + rest && chunk[4..8] == b[4..8];
        WholeChunk(p, chunk, byteLength);
        FeedConcat(p, chunk, rest, byteLength);
        ChunksChecked(FeedAll(p, chunk, byteLength), rest, byteLength);
      }
    }
  }

  lemma FeedNothing(p: Progress, byteLength: nat)
    requires Sound(p)
    ensures FeedAll(p, [], byteLength) == p
  {
  }

  /** The incremental check accepts a byte stream exactly when it is a WebP file of the declared length. */
  lemma CheckIsGrammar(file: seq<Byte>, byteLength: nat)
    requires |file| >= 12
    ensures Finished(FeedAll(BEGIN, file, byteLength), Le32(file[4..8]), byteLength) <==> IsWebp(file, byteLength)
  {
    hide FeedAll, Feed;
    OffsetCounts(BEGIN, file, byteLength);
    if |file| == byteLength {
      assert file == file[..12] + file[12..];
      FileHeader(BEGIN, file[..12], byteLength);
      FeedConcat(BEGIN, file[..12], file[12..], byteLength);
      ChunksChecked(FeedAll(BEGIN, file[..12], byteLength), file[12..], byteLength);
    }
  }
}
