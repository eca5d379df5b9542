/**
 * A writer of RIFF images, the partner of the loader: it lays chunks out one
 * after the other as the loader's walk expects them, so that loading a written
 * image gives back what was written.
 */
module WavWriter {
  import opened Common
  import opened WavFormat
  import opened ChunkScan
  import opened WavLoader

  /** A chunk to write: its tag and its payload. */
  datatype Chunk = Chunk(tag: uint32, payload: seq<uint8>)

  /** The payload size fits the 32-bit size field. */
  predicate Fits(c: Chunk)
  {
    |c.payload| < 0x1_0000_0000
  }

  predicate AllFit(cs: seq<Chunk>)
  {
    forall i :: 0 <= i < |cs| ==> Fits(cs[i])
  }

  /** A chunk on the wire: tag, payload size, payload. */
  function ChunkBytes(c: Chunk): (s: seq<uint8>)
    requires Fits(c)
    ensures |s| == RIFF_CHUNK_SIZE + |c.payload|
  {
    LE32(c.tag) + LE32(|c.payload|) + c.payload
  }

  /** Chunks written back to back, with no padding between them. */
  function ChunksBytes(cs: seq<Chunk>): seq<uint8>
    requires AllFit(cs)
  {
    if cs == [] then [] else ChunkBytes(cs[0]) + ChunksBytes(cs[1..])
  }

  /** Where the header of chunk i starts in ChunksBytes(cs). */
  function ChunkOffset(cs: seq<Chunk>, i: nat): nat
    requires AllFit(cs) && i <= |cs|
  {
    if i == 0 then 0 else RIFF_CHUNK_SIZE + |cs[0].payload| + ChunkOffset(cs[1..], i - 1)
  }

  /** The index of the first chunk tagged `tag`. */
  function FirstWithTag(cs: seq<Chunk>, tag: uint32): (r: Option<nat>)
    ensures r.Some? ==> r.value < |cs|
  {
    if cs == [] then None
    else if cs[0].tag == tag then Some(0)
    else match FirstWithTag(cs[1..], tag)
      case None => None
      case Some(i) => Some(i + 1)
  }

  /** FirstWithTag finds the first chunk with the tag, and nothing when no chunk has it. */
  lemma {:induction false} FirstWithTagIsFirst(cs: seq<Chunk>, tag: uint32)
    ensures FirstWithTag(cs, tag).None? <==> forall i :: 0 <= i < |cs| ==> cs[i].tag != tag
    ensures FirstWithTag(cs, tag).Some? ==>
              cs[FirstWithTag(cs, tag).value].tag == tag && forall i :: 0 <= i < FirstWithTag(cs, tag).value ==> cs[i].tag != tag
  {
    if cs != [] && cs[0].tag != tag {
      FirstWithTagIsFirst(cs[1..], tag);
      assert forall i :: 1 <= i < |cs| ==> cs[i] == cs[1..][i - 1];
    }
  }


  /** buf holds the bytes s from offset p on. */
  predicate HoldsAt(buf: seq<uint8>, p: nat, s: seq<uint8>)
  {
    p + |s| <= |buf| && forall k :: 0 <= k < |s| ==> buf[p + k] == s[k]
  }

  /** HoldsAt is the slice of buf at p being s. */
  lemma {:induction false} HoldsAtIsSlice(buf: seq<uint8>, p: nat, s: seq<uint8>)
    requires p + |s| <= |buf|
    ensures HoldsAt(buf, p, s) <==> buf[p .. p + |s|] == s
  {
    if buf[p .. p + |s|] == s {
      forall k | 0 <= k < |s| ensures buf[p + k] == s[k] {
        assert buf[p .. p + |s|][k] == s[k];
      }
    }
  }

  /** Bytes a + b held at p: a is held at p and b right after it. */
  lemma {:induction false} SplitAt(buf: seq<uint8>, p: nat, a: seq<uint8>, b: seq<uint8>)
    requires HoldsAt(buf, p, a + b)
    ensures HoldsAt(buf, p, a) && HoldsAt(buf, p + |a|, b)
  {
    forall k | 0 <= k < |a| ensures buf[p + k] == a[k] {
      assert (a + b)[k] == a[k];
    }
    forall k | 0 <= k < |b| ensures buf[p + |a| + k] == b[k] {
      assert (a + b)[|a| + k] == b[k];
    }
  }

  /** A little-endian uint32 held at p reads back. */
  lemma {:induction false} ReadsBack32(buf: seq<uint8>, p: nat, x: uint32)
    requires HoldsAt(buf, p, LE32(x))
    ensures U32(buf, p) == x
  {
    var s := LE32(x);
    assert buf[p] == s[0] && buf[p + 1] == s[1] && buf[p + 2] == s[2] && buf[p + 3] == s[3];
    LE32RoundTrip(x, s, 0);
  }

  /** A little-endian uint16 held at p reads back. */
  lemma {:induction false} ReadsBack16(buf: seq<uint8>, p: nat, x: uint16)
    requires HoldsAt(buf, p, LE16(x))
    ensures U16(buf, p) == x
  {
    var s := LE16(x);
    assert buf[p] == s[0] && buf[p + 1] == s[1];
    LE16RoundTrip(x, s, 0);
  }

  /** The header of a chunk held at p reads back as its tag and payload size, and its payload follows it. */
  lemma {:induction false} HeaderReadsBack(buf: seq<uint8>, p: nat, c: Chunk)
    requires Fits(c) && HoldsAt(buf, p, ChunkBytes(c))
    ensures Readable(buf, p) && TagAt(buf, p) == c.tag && SizeAt(buf, p) == |c.payload|
    ensures HoldsAt(buf, p + RIFF_CHUNK_SIZE, c.payload)
    ensures PayloadAt(buf, p) == Span(p + RIFF_CHUNK_SIZE, |c.payload|)
  {
    SplitAt(buf, p, LE32(c.tag) + LE32(|c.payload|), c.payload);
    SplitAt(buf, p, LE32(c.tag), LE32(|c.payload|));
    ReadsBack32(buf, p, c.tag);
    ReadsBack32(buf, p + 4, |c.payload|);
  }

  /** The walk moves past a header that does not match. */
  lemma {:induction false} WalkStep(buf: seq<uint8>, p: nat, end: nat, tag: uint32)
    requires InRegion(p, end) && Readable(buf, p) && TagAt(buf, p) != tag
    ensures ScanChunks(buf, p, end, tag) == ScanChunks(buf, NextHeader(buf, p), end, tag)
  {
  }

  /** The headers of chunks cs, read from p on, hold their tags and payload sizes. */
  predicate HeadersAt(buf: seq<uint8>, p: nat, cs: seq<Chunk>)
    decreases |cs|
  {
    cs == [] ||
    (Readable(buf, p) && TagAt(buf, p) == cs[0].tag && SizeAt(buf, p) == |cs[0].payload| &&
     HeadersAt(buf, p + RIFF_CHUNK_SIZE + |cs[0].payload|, cs[1..]))
  }

  /** Chunks written at p can be read back header by header; they span ChunkOffset(cs, |cs|) bytes. */
  lemma {:induction false} WrittenHeaders(buf: seq<uint8>, p: nat, cs: seq<Chunk>)
    requires AllFit(cs)
    requires HoldsAt(buf, p, ChunksBytes(cs))
    decreases |cs|
    ensures HeadersAt(buf, p, cs)
    ensures |ChunksBytes(cs)| == ChunkOffset(cs, |cs|)
  {
    if cs != [] {
      SplitAt(buf, p, ChunkBytes(cs[0]), ChunksBytes(cs[1..]));
      HeaderReadsBack(buf, p, cs[0]);
      WrittenHeaders(buf, p + RIFF_CHUNK_SIZE + |cs[0].payload|, cs[1..]);
      assert ChunkOffset(cs, |cs|) == RIFF_CHUNK_SIZE + |cs[0].payload| + ChunkOffset(cs[1..], |cs[1..]|);
    }
  }

  /** Chunks written at p: the header of chunk i at p + ChunkOffset(cs, i) gives its payload span, which holds its payload. */
  lemma {:induction false} ChunkAt(buf: seq<uint8>, p: nat, cs: seq<Chunk>, i: nat)
    requires AllFit(cs)
    requires i < |cs|
    requires HoldsAt(buf, p, ChunksBytes(cs))
    decreases i
    ensures var h := p + ChunkOffset(cs, i);
            Readable(buf, h) && PayloadAt(buf, h) == Span(h + RIFF_CHUNK_SIZE, |cs[i].payload|) &&
            HoldsAt(buf, h + RIFF_CHUNK_SIZE, cs[i].payload)
  {
    SplitAt(buf, p, ChunkBytes(cs[0]), ChunksBytes(cs[1..]));
    if i == 0 {
      HeaderReadsBack(buf, p, cs[0]);
    } else {
      ChunkAt(buf, p + RIFF_CHUNK_SIZE + |cs[0].payload|, cs[1..], i - 1);
      assert cs[1..][i - 1] == cs[i];
    }
  }

  /**
   * The loader's walk over chunks laid out back to back from p stops at the
   * first chunk with the tag. The region must reach beyond the last header for
   * the walk to read it.
   */
  lemma {:induction false} ScanToChunk(buf: seq<uint8>, p: nat, cs: seq<Chunk>, end: nat, tag: uint32)
    requires AllFit(cs) && HeadersAt(buf, p, cs)
    requires p + ChunkOffset(cs, |cs|) < end
    requires FirstWithTag(cs, tag).Some?
    decreases |cs|
    ensures ScanChunks(buf, p, end, tag) == Found(p + ChunkOffset(cs, FirstWithTag(cs, tag).value))
  {
    if cs[0].tag != tag {
      var p' := p + RIFF_CHUNK_SIZE + |cs[0].payload|;
      var i := FirstWithTag(cs[1..], tag).value;
      assert ChunkOffset(cs, |cs|) == RIFF_CHUNK_SIZE + |cs[0].payload| + ChunkOffset(cs[1..], |cs[1..]|);
      ScanToChunk(buf, p', cs[1..], end, tag);
      WalkStep(buf, p, end, tag);
      assert ChunkOffset(cs, i + 1) == RIFF_CHUNK_SIZE + |cs[0].payload| + ChunkOffset(cs[1..], i);
    }
  }

  /** The walk over chunks none of which has the tag goes on past all of them. */
  lemma {:induction false} ScanPastChunks(buf: seq<uint8>, p: nat, cs: seq<Chunk>, end: nat, tag: uint32)
    requires AllFit(cs) && HeadersAt(buf, p, cs)
    requires p + ChunkOffset(cs, |cs|) < end
    requires FirstWithTag(cs, tag).None?
    decreases |cs|
    ensures ScanChunks(buf, p, end, tag) == ScanChunks(buf, p + ChunkOffset(cs, |cs|), end, tag)
  {
    if cs != [] {
      var p' := p + RIFF_CHUNK_SIZE + |cs[0].payload|;
      assert ChunkOffset(cs, |cs|) == RIFF_CHUNK_SIZE + |cs[0].payload| + ChunkOffset(cs[1..], |cs[1..]|);
      ScanPastChunks(buf, p', cs[1..], end, tag);
      WalkStep(buf, p, end, tag);
    }
  }

  // ---------------------------------------------------------------------------
  // RIFF images
  // ---------------------------------------------------------------------------

  /** A RIFF image: the RIFF header, the form type, then the chunks; the RIFF size counts the form type and the chunks. */
  function RiffImage(form: uint32, cs: seq<Chunk>): (buf: seq<uint8>)
    requires AllFit(cs) && 4 + |ChunksBytes(cs)| < 0x1_0000_0000
    ensures |buf| == RIFF_CHUNK_HEADER_SIZE + |ChunksBytes(cs)|
  {
    ChunkBytes(Chunk(TAG_RIFF, LE32(form) + ChunksBytes(cs)))
  }

  /**
   * buf is laid out as the RIFF image of form and cs: the loader finds the
   * RIFF header at offset 0 with the size and form written, and the chunks
   * follow the 12-byte RIFF header to the end of the buffer.
   */
  predicate LaidOut(buf: seq<uint8>, form: uint32, cs: seq<Chunk>)
  {
    HoldsChunks(buf, cs) && LocateRiff(buf) == Ok(Riff(0, 4 + |ChunksBytes(cs)|, form))
  }

  /** The chunks cs follow the 12-byte RIFF header to the end of buf, and their size fits the RIFF size field. */
  predicate HoldsChunks(buf: seq<uint8>, cs: seq<Chunk>)
  {
    AllFit(cs) && 4 + |ChunksBytes(cs)| < 0x1_0000_0000 &&
    |buf| == RIFF_CHUNK_HEADER_SIZE + |ChunksBytes(cs)| && HoldsAt(buf, RIFF_CHUNK_HEADER_SIZE, ChunksBytes(cs))
  }

  /** A RIFF image is laid out as its form and chunks. */
  lemma {:induction false} RiffImageLayout(form: uint32, cs: seq<Chunk>)
    requires AllFit(cs) && 4 + |ChunksBytes(cs)| < 0x1_0000_0000
    ensures LaidOut(RiffImage(form, cs), form, cs)
  {
    var buf := RiffImage(form, cs);
    var riff := Chunk(TAG_RIFF, LE32(form) + ChunksBytes(cs));
    assert HoldsAt(buf, 0, ChunkBytes(riff));
    HeaderReadsBack(buf, 0, riff);
    assert ScanChunks(buf, 0, |buf|, TAG_RIFF) == Found(0);
    SplitAt(buf, 0, LE32(TAG_RIFF) + LE32(|riff.payload|), riff.payload);
    SplitAt(buf, RIFF_CHUNK_SIZE, LE32(form), ChunksBytes(cs));
    ReadsBack32(buf, RIFF_FORM_OFFSET, form);
  }

  /**
   * The format record of f as a 'fmt ' payload: a 16-byte PCMWAVEFORMAT, or an
   * 18-byte WAVEFORMATEX when `extended`.
   */
  function FormatRecord(f: WAVFormat, extended: bool): (s: seq<uint8>)
    requires f.sampleRate < 0x1_0000_0000 && f.avgByteRate < 0x1_0000_0000
    ensures |s| == if extended then WAVEFORMATEX_SIZE else PCMWAVEFORMAT_SIZE
  {
    LE16(f.formatTag) + LE16(f.channels) + LE32(f.sampleRate) + LE32(f.avgByteRate) +
    LE16(f.blockAlignment) + LE16(f.bitsPerSample) + (if extended then LE16(f.cbSize) else [])
  }

  /** A written format record reads back as the format, with cbSize zero when the record is a PCMWAVEFORMAT. */
  lemma {:induction false} ReadFormatRecord(buf: seq<uint8>, p: nat, f: WAVFormat, extended: bool)
    requires f.sampleRate < 0x1_0000_0000 && f.avgByteRate < 0x1_0000_0000
    requires HoldsAt(buf, p, FormatRecord(f, extended))
    ensures ReadFormat(buf, Span(p, |FormatRecord(f, extended)|)) == if extended then f else f.(cbSize := 0)
  {
    var r1 := LE16(f.formatTag);
    var r2 := r1 + LE16(f.channels);
    var r3 := r2 + LE32(f.sampleRate);
    var r4 := r3 + LE32(f.avgByteRate);
    var r5 := r4 + LE16(f.blockAlignment);
    var r6 := r5 + LE16(f.bitsPerSample);
    var tail := if extended then LE16(f.cbSize) else [];
    SplitAt(buf, p, r6, tail);
    SplitAt(buf, p, r5, LE16(f.bitsPerSample));
    SplitAt(buf, p, r4, LE16(f.blockAlignment));
    SplitAt(buf, p, r3, LE32(f.avgByteRate));
    SplitAt(buf, p, r2, LE32(f.sampleRate));
    SplitAt(buf, p, r1, LE16(f.channels));
    ReadsBack16(buf, p, f.formatTag);
    ReadsBack16(buf, p + WFX_CHANNELS_OFFSET, f.channels);
    ReadsBack32(buf, p + WFX_SAMPLE_RATE_OFFSET, f.sampleRate);
    ReadsBack32(buf, p + WFX_AVG_BYTES_OFFSET, f.avgByteRate);
    ReadsBack16(buf, p + WFX_BLOCK_ALIGN_OFFSET, f.blockAlignment);
    ReadsBack16(buf, p + WFX_BITS_OFFSET, f.bitsPerSample);
    if extended {
      ReadsBack16(buf, p + WFX_CB_SIZE_OFFSET, f.cbSize);
    }
  }

  /** A chunk of cs in a laid-out image: its header at 12 + its offset, and its payload right after. */
  lemma {:induction false} ChunkInImage(buf: seq<uint8>, cs: seq<Chunk>, i: nat)
    requires HoldsChunks(buf, cs) && i < |cs|
    ensures Readable(buf, RIFF_CHUNK_HEADER_SIZE + ChunkOffset(cs, i))
    ensures PayloadAt(buf, RIFF_CHUNK_HEADER_SIZE + ChunkOffset(cs, i)) == PayloadSpan(cs, i)
    ensures HoldsAt(buf, PayloadSpan(cs, i).start, cs[i].payload)
  {
    ChunkAt(buf, RIFF_CHUNK_HEADER_SIZE, cs, i);
  }

  /** The walks over the chunks of a laid-out image cover all its chunks. */
  lemma {:induction false} ScanImage(buf: seq<uint8>, cs: seq<Chunk>, tag: uint32)
    requires HoldsChunks(buf, cs)
    ensures FirstWithTag(cs, tag).Some? ==>
              ScanChunks(buf, RIFF_CHUNK_HEADER_SIZE, RIFF_CHUNK_HEADER_SIZE + 4 + |ChunksBytes(cs)|, tag) ==
              Found(RIFF_CHUNK_HEADER_SIZE + ChunkOffset(cs, FirstWithTag(cs, tag).value))
    ensures FirstWithTag(cs, tag).None? ==>
              ScanChunks(buf, RIFF_CHUNK_HEADER_SIZE, RIFF_CHUNK_HEADER_SIZE + 4 + |ChunksBytes(cs)|, tag).Absent?
  {
    WrittenHeaders(buf, RIFF_CHUNK_HEADER_SIZE, cs);
    if FirstWithTag(cs, tag).Some? {
      ScanToChunk(buf, RIFF_CHUNK_HEADER_SIZE, cs, RIFF_CHUNK_HEADER_SIZE + 4 + |ChunksBytes(cs)|, tag);
    } else {
      ScanPastChunks(buf, RIFF_CHUNK_HEADER_SIZE, cs, RIFF_CHUNK_HEADER_SIZE + 4 + |ChunksBytes(cs)|, tag);
    }
  }

  /** Where the payload of chunk i of cs lies in a laid-out image. */
  function PayloadSpan(cs: seq<Chunk>, i: nat): Span
    requires AllFit(cs) && i < |cs|
  {
    Span(RIFF_CHUNK_HEADER_SIZE + ChunkOffset(cs, i) + RIFF_CHUNK_SIZE, |cs[i].payload|)
  }

  /** The header of chunk i, read from the headers of cs at p, declares its payload size. */
  lemma {:induction false} HeaderInList(buf: seq<uint8>, p: nat, cs: seq<Chunk>, i: nat)
    requires AllFit(cs) && HeadersAt(buf, p, cs) && i < |cs|
    decreases i
    ensures Readable(buf, p + ChunkOffset(cs, i)) && SizeAt(buf, p + ChunkOffset(cs, i)) == |cs[i].payload|
  {
    if i > 0 {
      HeaderInList(buf, p + RIFF_CHUNK_SIZE + |cs[0].payload|, cs[1..], i - 1);
      assert cs[1..][i - 1] == cs[i];
    }
  }

  /** Chunk i, header and payload, ends within the chunks of cs. */
  lemma {:induction false} ChunkWithinList(cs: seq<Chunk>, i: nat)
    requires AllFit(cs) && i < |cs|
    decreases i
    ensures ChunkOffset(cs, i) + RIFF_CHUNK_SIZE + |cs[i].payload| <= ChunkOffset(cs, |cs|)
  {
    assert ChunkOffset(cs, |cs|) == RIFF_CHUNK_SIZE + |cs[0].payload| + ChunkOffset(cs[1..], |cs[1..]|);
    if i > 0 {
      ChunkWithinList(cs[1..], i - 1);
      assert cs[1..][i - 1] == cs[i];
    }
  }

  /**
   * Looking up a tag in a laid-out image finds the payload span of the first
   * chunk with that tag (which holds its payload, by ChunkInImage), and nothing
   * when no chunk has it.
   */
  lemma {:induction false} FindInImage(buf: seq<uint8>, form: uint32, cs: seq<Chunk>, tag: uint32)
    requires HoldsChunks(buf, cs)
    ensures var riff := Riff(0, 4 + |ChunksBytes(cs)|, form);
            FirstWithTag(cs, tag).None? ==> FindInRiff(buf, riff, tag) == Ok(None)
    ensures var riff := Riff(0, 4 + |ChunksBytes(cs)|, form);
            FirstWithTag(cs, tag).Some? ==>
              var sp := PayloadSpan(cs, FirstWithTag(cs, tag).value);
              FindInRiff(buf, riff, tag) == Ok(Some(sp)) && sp.End() <= |buf|
  {
    ScanImage(buf, cs, tag);
    if FirstWithTag(cs, tag).Some? {
      WrittenHeaders(buf, RIFF_CHUNK_HEADER_SIZE, cs);
      HeaderInList(buf, RIFF_CHUNK_HEADER_SIZE, cs, FirstWithTag(cs, tag).value);
      ChunkWithinList(cs, FirstWithTag(cs, tag).value);
    }
  }

  /**
   * A WAVE image with a PCM or IEEE-float format record: the first 'fmt '
   * chunk holds FormatRecord(f, extended) and the first 'data' chunk is not
   * empty; other chunks may come before, between and after them.
   */
  predicate PlainWave(f: WAVFormat, extended: bool, cs: seq<Chunk>)
  {
    AllFit(cs) &&
    f.formatTag in {WAVE_FORMAT_PCM, WAVE_FORMAT_IEEE_FLOAT} &&
    f.sampleRate < 0x1_0000_0000 && f.avgByteRate < 0x1_0000_0000 &&
    (extended || f.cbSize == 0) &&
    FirstWithTag(cs, TAG_FORMAT).Some? && cs[FirstWithTag(cs, TAG_FORMAT).value].payload == FormatRecord(f, extended) &&
    FirstWithTag(cs, TAG_DATA).Some? && |cs[FirstWithTag(cs, TAG_DATA).value].payload| > 0
  }

  /**
   * Loading a WAVE image gives back the format written and the audio
   * written: FindFormatAndData returns f and a span holding exactly the first
   * 'data' payload, and needs no table.
   */
  lemma {:induction false} PlainWaveRoundTrip(buf: seq<uint8>, f: WAVFormat, extended: bool, cs: seq<Chunk>)
    requires LaidOut(buf, TAG_WAVE_FILE, cs) && PlainWave(f, extended, cs)
    ensures var data := PayloadSpan(cs, FirstWithTag(cs, TAG_DATA).value);
            FindFormatAndData(Some(buf)) == Ok(FormatAndData(f, data, NO_TABLES)) &&
            HoldsAt(buf, data.start, cs[FirstWithTag(cs, TAG_DATA).value].payload)
  {
    var i := FirstWithTag(cs, TAG_FORMAT).value;
    FindInImage(buf, TAG_WAVE_FILE, cs, TAG_FORMAT);
    FindInImage(buf, TAG_WAVE_FILE, cs, TAG_DATA);
    ChunkInImage(buf, cs, i);
    ChunkInImage(buf, cs, FirstWithTag(cs, TAG_DATA).value);
    var fmt := PayloadSpan(cs, i);
    ReadFormatRecord(buf, fmt.start, f, extended);
    assert ClassifyFormat(buf, fmt) == Ok(NO_TABLES);
  }
}
