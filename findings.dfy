/**
 * Two places where the loader as written departs from what it evidently means
 * to do, each shown on a concrete file.
 *
 * The cbSize copy of FindFormatAndData reads the two bytes after a 16-byte
 * PCMWAVEFORMAT record as its cbSize. In a canonical PCM file those are the
 * first two bytes of the 'data' tag; when the record ends the buffer, they lie
 * past its end.
 *
 * FindLoopInfo starts its 'smpl' walk from the payload of a 'wsmp' chunk that
 * had no usable loop, so it reads the RIFFDLSSample fields as chunk headers and
 * can step over a 'smpl' chunk that holds a forward loop.
 */
module Findings {
  import opened Common
  import opened WavFormat
  import opened ChunkScan
  import opened WavLoader
  import opened WavWriter
  import opened RecordImages

  /** The low 16 bits of the 'data' tag: the characters 'd' and 'a'. */
  lemma {:induction false} DataTagLowHalf()
    ensures TAG_DATA % 0x1_0000 == 0x6164
  {
    var t := TAG_DATA;
    assert t % 0x100 == 0x64 && t / 0x100 % 0x100 == 0x61;
    assert t % 0x1_0000 == t % 0x100 + t / 0x100 % 0x100 * 0x100;
  }

  /** The first 16 bits of a header are the low half of its tag. */
  lemma {:induction false} TagLowHalf(buf: seq<uint8>, p: nat)
    requires Readable(buf, p)
    ensures U16(buf, p) == TagAt(buf, p) % 0x1_0000
  {
  }

  /** A 16-byte PCM 'fmt ' chunk followed by a 'data' chunk: the layout of the canonical 44-byte header. */
  function CanonicalChunks(f: WAVFormat, audio: seq<uint8>): (cs: seq<Chunk>)
    requires f.sampleRate < 0x1_0000_0000 && f.avgByteRate < 0x1_0000_0000 && |audio| < 0x1_0000_0000
    ensures AllFit(cs) && |ChunksBytes(cs)| == 2 * RIFF_CHUNK_SIZE + PCMWAVEFORMAT_SIZE + |audio|
  {
    var cs := [Chunk(TAG_FORMAT, FormatRecord(f, false)), Chunk(TAG_DATA, audio)];
    assert ChunksBytes(cs) == ChunkBytes(cs[0]) + (ChunkBytes(cs[1]) + ChunksBytes(cs[2..]));
    cs
  }

  /** The same two chunks with the 'data' chunk first, so that the format record ends the buffer. */
  function TrailingFormatChunks(f: WAVFormat, audio: seq<uint8>): (cs: seq<Chunk>)
    requires f.sampleRate < 0x1_0000_0000 && f.avgByteRate < 0x1_0000_0000 && |audio| < 0x1_0000_0000
    ensures AllFit(cs) && |ChunksBytes(cs)| == 2 * RIFF_CHUNK_SIZE + PCMWAVEFORMAT_SIZE + |audio|
  {
    var cs := [Chunk(TAG_DATA, audio), Chunk(TAG_FORMAT, FormatRecord(f, false))];
    assert ChunksBytes(cs) == ChunkBytes(cs[0]) + (ChunkBytes(cs[1]) + ChunksBytes(cs[2..]));
    cs
  }

  /** A PCM format that a PCMWAVEFORMAT record can carry. */
  predicate PcmFormat(f: WAVFormat)
  {
    f.formatTag == WAVE_FORMAT_PCM && f.sampleRate < 0x1_0000_0000 && f.avgByteRate < 0x1_0000_0000 && f.cbSize == 0
  }

  /** In a canonical PCM file the 'data' header follows the 16-byte record, at offset 36. */
  lemma {:induction false} DataHeaderAt(buf: seq<uint8>, f: WAVFormat, audio: seq<uint8>)
    requires PcmFormat(f) && 0 < |audio| < 0x1_0000_0000
    requires HoldsChunks(buf, CanonicalChunks(f, audio))
    ensures Readable(buf, 36) && TagAt(buf, 36) == TAG_DATA
  {
    var cs := CanonicalChunks(f, audio);
    WrittenHeaders(buf, RIFF_CHUNK_HEADER_SIZE, cs);
    assert HeadersAt(buf, 36, cs[1..]);
  }

  /**
   * In a canonical PCM file, the loader accepts the file and finds the
   * 16-byte format record at offset 20, and the copy as written takes 0x6164
   * ('d', 'a') for cbSize, where the corrected copy gives 0.
   */
  lemma {:induction false} CanonicalPcmCbSizeAsWritten(buf: seq<uint8>, f: WAVFormat, audio: seq<uint8>)
    requires PcmFormat(f) && 0 < |audio| < 0x1_0000_0000
    requires LaidOut(buf, TAG_WAVE_FILE, CanonicalChunks(f, audio))
    ensures FindFormatAndData(Some(buf)).Ok? && FindFormatAndData(Some(buf)).value.format == f
    ensures FindInRiff(buf, LocateRiff(buf).value, TAG_FORMAT) == Ok(Some(Span(20, PCMWAVEFORMAT_SIZE)))
    ensures ReadFormatAsWritten(buf, 20).cbSize == 0x6164
  {
    var cs := CanonicalChunks(f, audio);
    TagsDistinct();
    assert FirstWithTag(cs, TAG_FORMAT) == Some(0);
    assert FirstWithTag(cs, TAG_DATA) == Some(1);
    PlainWaveRoundTrip(buf, f, false, cs);
    FindInImage(buf, TAG_WAVE_FILE, cs, TAG_FORMAT);
    DataHeaderAt(buf, f, audio);
    TagLowHalf(buf, 36);
    DataTagLowHalf();
  }

  /**
   * When the 16-byte format record is the last chunk, the loader accepts the
   * file, and the cbSize bytes the copy as written reads lie past the end of
   * the buffer.
   */
  lemma {:induction false} TrailingPcmFormatReadsPastEnd(buf: seq<uint8>, f: WAVFormat, audio: seq<uint8>)
    requires PcmFormat(f) && 0 < |audio| < 0x1_0000_0000
    requires LaidOut(buf, TAG_WAVE_FILE, TrailingFormatChunks(f, audio))
    ensures FindFormatAndData(Some(buf)).Ok? && FindFormatAndData(Some(buf)).value.format == f
    ensures FindInRiff(buf, LocateRiff(buf).value, TAG_FORMAT) == Ok(Some(Span(|buf| - PCMWAVEFORMAT_SIZE, PCMWAVEFORMAT_SIZE)))
    // the cbSize field, bytes 16 and 17 of the record, would end past the buffer
    ensures FindInRiff(buf, LocateRiff(buf).value, TAG_FORMAT).value.value.start + WAVEFORMATEX_SIZE > |buf|
  {
    var cs := TrailingFormatChunks(f, audio);
    TagsDistinct();
    assert FirstWithTag(cs, TAG_DATA) == Some(0);
    assert FirstWithTag(cs, TAG_FORMAT) == Some(1);
    PlainWaveRoundTrip(buf, f, false, cs);
    FindInImage(buf, TAG_WAVE_FILE, cs, TAG_FORMAT);
    assert ChunkOffset(cs, 1) == RIFF_CHUNK_SIZE + |audio|;
  }

  /** Both shapes exist: the RIFF images of these chunks are laid out as such. */
  lemma {:induction false} FindingImages(f: WAVFormat, audio: seq<uint8>)
    requires PcmFormat(f) && 0 < |audio| < 0x1_0000
    ensures LaidOut(RiffImage(TAG_WAVE_FILE, CanonicalChunks(f, audio)), TAG_WAVE_FILE, CanonicalChunks(f, audio))
    ensures LaidOut(RiffImage(TAG_WAVE_FILE, TrailingFormatChunks(f, audio)), TAG_WAVE_FILE, TrailingFormatChunks(f, audio))
  {
    RiffImageLayout(TAG_WAVE_FILE, CanonicalChunks(f, audio));
    RiffImageLayout(TAG_WAVE_FILE, TrailingFormatChunks(f, audio));
  }

  /** A 'wsmp' chunk without loop records, then a 'smpl' chunk with one MIDI loop record. */
  function LooplessWsmpThenSmpl(loop: MidiLoopRecord): (cs: seq<Chunk>)
    ensures AllFit(cs) && |ChunksBytes(cs)| == 2 * RIFF_CHUNK_SIZE + RIFF_DLS_SAMPLE_SIZE + RIFF_MIDI_SAMPLE_SIZE + MIDI_LOOP_SIZE
  {
    var cs := [Chunk(TAG_DLS_SAMPLE, WordsBytes(WsmpWords([]))), Chunk(TAG_MIDI_SAMPLE, WordsBytes(SmplWords([loop])))];
    assert ChunksBytes(cs) == ChunkBytes(cs[0]) + (ChunkBytes(cs[1]) + ChunksBytes(cs[2..]));
    cs
  }

  /**
   * With a loop-less 'wsmp' chunk at offset 12 and a 'smpl' chunk with a
   * forward loop at offset 40, the 'smpl' walk as written starts at the 'wsmp'
   * payload (offset 20), reads headers at 20, 28 and 36, takes the 'smpl' tag
   * at 40 for the size of the third and jumps past the container: no loop. The
   * corrected walk finds the forward loop.
   */
  lemma {:induction false} SmplBehindLooplessWsmpAsWritten(buf: seq<uint8>, loop: MidiLoopRecord)
    requires loop.loopType == MIDI_LOOP_FORWARD
    requires LaidOut(buf, TAG_WAVE_FILE, LooplessWsmpThenSmpl(loop))
    ensures LoopInfoAsWritten(Some(buf)) == Ok(NO_LOOP)
    ensures LoopInfo(Some(buf)) == Ok(LoopRegion(loop.start, Wrap32(loop.end - loop.start + 1)))
  {
    var cs := LooplessWsmpThenSmpl(loop);
    TagsDistinct();
    assert FirstWithTag(cs, TAG_DLS_SAMPLE) == Some(0);
    assert FirstWithTag(cs, TAG_MIDI_SAMPLE) == Some(1);
    assert FirstForwardLoop([loop], 0) == Some(LoopRegion(loop.start, Wrap32(loop.end - loop.start + 1)));
    SmplLoopInImage(buf, cs, [], [loop]);
    LooplessWsmpRead(buf, loop);
    SmplWalkFromWsmp(buf, 20 + 4 + |ChunksBytes(cs)|);
  }

  /** What the loader reads of the image: the 'wsmp' payload at 20, without a loop, its words, and the 'smpl' tag at 40. */
  lemma {:induction false} LooplessWsmpRead(buf: seq<uint8>, loop: MidiLoopRecord)
    requires LaidOut(buf, TAG_WAVE_FILE, LooplessWsmpThenSmpl(loop))
    ensures FindInRiff(buf, LocateRiff(buf).value, TAG_DLS_SAMPLE) == Ok(Some(Span(20, RIFF_DLS_SAMPLE_SIZE)))
    ensures |buf| == RIFF_CHUNK_HEADER_SIZE + |ChunksBytes(LooplessWsmpThenSmpl(loop))|
    ensures DlsLoop(buf, Span(20, RIFF_DLS_SAMPLE_SIZE)).None?
    ensures U32(buf, 20) == RIFF_DLS_SAMPLE_SIZE && U32(buf, 24) == 0 && U32(buf, 28) == 0 && U32(buf, 32) == 0 && U32(buf, 36) == 0
    ensures U32(buf, 40) == TAG_MIDI_SAMPLE
  {
    var cs := LooplessWsmpThenSmpl(loop);
    var wsmp := Span(20, RIFF_DLS_SAMPLE_SIZE);
    assert FirstWithTag(cs, TAG_DLS_SAMPLE) == Some(0);
    FindInImage(buf, TAG_WAVE_FILE, cs, TAG_DLS_SAMPLE);
    assert PayloadSpan(cs, 0) == wsmp;
    ChunkInImage(buf, cs, 0);
    DlsLoopOfWords(buf, wsmp, []);
    WordsReadBack(buf, 20, WsmpWords([]));
    assert U32(buf, 20 + 4 * 1) == 0 && U32(buf, 20 + 4 * 2) == 0 && U32(buf, 20 + 4 * 3) == 0 && U32(buf, 20 + 4 * 4) == 0;
    WrittenHeaders(buf, RIFF_CHUNK_HEADER_SIZE, cs);
    assert HeadersAt(buf, 40, cs[1..]);
  }

  /**
   * The walk for 'smpl' from offset 20 over those words: the headers at 20,
   * 28 and 36 do not match, and the third declares the 'smpl' tag as its size,
   * which carries the walk past any end below 44 + that tag.
   */
  lemma {:induction false} SmplWalkFromWsmp(buf: seq<uint8>, end: nat)
    requires 44 <= |buf| && 44 < end <= 44 + TAG_MIDI_SAMPLE
    requires U32(buf, 20) == RIFF_DLS_SAMPLE_SIZE && U32(buf, 24) == 0 && U32(buf, 28) == 0 && U32(buf, 32) == 0 && U32(buf, 36) == 0
    requires U32(buf, 40) == TAG_MIDI_SAMPLE
    ensures ScanChunks(buf, 20, end, TAG_MIDI_SAMPLE) == Absent
  {
    WalkStep(buf, 20, end, TAG_MIDI_SAMPLE);
    WalkStep(buf, 28, end, TAG_MIDI_SAMPLE);
    WalkStep(buf, 36, end, TAG_MIDI_SAMPLE);
  }

  /** The file of the 'smpl' finding exists: the RIFF image of its chunks is laid out as such. */
  lemma {:induction false} SmplFindingImage(loop: MidiLoopRecord)
    ensures LaidOut(RiffImage(TAG_WAVE_FILE, LooplessWsmpThenSmpl(loop)), TAG_WAVE_FILE, LooplessWsmpThenSmpl(loop))
  {
    RiffImageLayout(TAG_WAVE_FILE, LooplessWsmpThenSmpl(loop));
  }
}
