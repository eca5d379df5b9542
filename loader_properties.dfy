/**
 * What the in-memory loaders promise their callers: the codec and the tables
 * it needs, the audio span and tables inside the buffer, the relation between
 * LoadWAVAudioInMemory and LoadWAVAudioInMemoryEx, the loop conventions, and
 * the rejection of a truncated file.
 */
module LoaderProperties {
  import opened Common
  import opened WavFormat
  import opened ChunkScan
  import opened WavLoader

  /**
   * The format FindFormatAndData returns is a codec the loader knows, and the
   * table it asks for follows the codec: a seek table exactly for XMA2, a
   * packet table for WMA v2/v3, no table for PCM, IEEE float and MS ADPCM.
   */
  lemma {:induction false} FormatSelectsTables(buf: seq<uint8>)
    ensures FindFormatAndData(Some(buf)).Ok? ==>
            var fd := FindFormatAndData(Some(buf)).value;
            KnownFormatTag(fd.format.formatTag) &&
            (fd.tables.seek <==> fd.format.formatTag == WAVE_FORMAT_XMA2) &&
            (fd.format.formatTag in {WAVE_FORMAT_WMAUDIO2, WAVE_FORMAT_WMAUDIO3} ==> fd.tables.dpds) &&
            (fd.format.formatTag in {WAVE_FORMAT_PCM, WAVE_FORMAT_IEEE_FLOAT, WAVE_FORMAT_ADPCM} ==> fd.tables == NO_TABLES)
  {
    if FindFormatAndData(Some(buf)).Ok? {
      var fd := FindFormatAndData(Some(buf)).value;
      var riff := LocateRiff(buf).value;
      var fmt :| IsFormatSpan(buf, riff, fmt) && ClassifyFormat(buf, fmt) == Ok(fd.tables) && fd.format == ReadFormat(buf, fmt);
      assert fd.format.formatTag == U16(buf, fmt.start);
    }
  }

  /**
   * LoadWAVAudioInMemory succeeds exactly when the format and the audio are
   * found and the codec needs no table. A codec that needs a table fails with
   * E_FAIL after the format and the audio span were written; every other
   * failure leaves the outputs reset.
   */
  lemma {:induction false} InMemoryOutcome(buf: seq<uint8>)
    ensures InMemory(buf).status == Success <==>
              FindFormatAndData(Some(buf)).Ok? && FindFormatAndData(Some(buf)).value.tables == NO_TABLES
    ensures FindFormatAndData(Some(buf)).Err? ==>
              InMemory(buf) == Outcome(Failure(FindFormatAndData(Some(buf)).error), EMPTY_WAV_DATA)
    ensures FindFormatAndData(Some(buf)).Ok? && FindFormatAndData(Some(buf)).value.tables != NO_TABLES ==>
              InMemory(buf) == Outcome(Failure(EFail), WithFormat(FindFormatAndData(Some(buf)).value))
  {
  }

  /**
   * After a successful load, the audio span is non-empty and inside the
   * buffer, the format is a known codec, and a table view lies inside the
   * buffer with its entry count; without a view the count is zero.
   */
  lemma {:induction false} LoadedSpansInsideBuffer(buf: seq<uint8>)
    ensures InMemoryEx(buf).status == Success ==>
              var d := InMemoryEx(buf).data;
              d.startAudio.Some? && 0 < d.audioBytes && d.startAudio.value + d.audioBytes <= |buf| &&
              KnownFormatTag(d.format.formatTag) &&
              (d.seek.Some? ==> d.seek.value + 4 * d.seekCount <= |buf|) &&
              (d.seek.None? ==> d.seekCount == 0)
    ensures InMemory(buf).status == Success ==>
              var d := InMemory(buf).data;
              d.startAudio.Some? && 0 < d.audioBytes && d.startAudio.value + d.audioBytes <= |buf| &&
              KnownFormatTag(d.format.formatTag)
  {
    if FindFormatAndData(Some(buf)).Ok? {
      FormatSelectsTables(buf);
    }
  }

  /**
   * LoadWAVAudioInMemoryEx writes the same format and audio span as
   * LoadWAVAudioInMemory, and where the latter succeeds, the former succeeds
   * exactly when the loop search does, with the loop it found and no table.
   */
  lemma {:induction false} ExExtendsInMemory(buf: seq<uint8>)
    ensures InMemoryEx(buf).data.format == InMemory(buf).data.format
    ensures InMemoryEx(buf).data.startAudio == InMemory(buf).data.startAudio
    ensures InMemoryEx(buf).data.audioBytes == InMemory(buf).data.audioBytes
    // each step's failure is returned unchanged, with the outputs written up to that step
    ensures FindFormatAndData(Some(buf)).Err? ==>
              InMemoryEx(buf) == Outcome(Failure(FindFormatAndData(Some(buf)).error), EMPTY_WAV_DATA)
    ensures FindFormatAndData(Some(buf)).Ok? && LoopInfo(Some(buf)).Err? ==>
              InMemoryEx(buf) == Outcome(Failure(LoopInfo(Some(buf)).error), WithFormat(FindFormatAndData(Some(buf)).value))
    ensures FindFormatAndData(Some(buf)).Ok? && LoopInfo(Some(buf)).Ok? && FindFormatAndData(Some(buf)).value.tables != NO_TABLES ==>
              var tag := if FindFormatAndData(Some(buf)).value.tables.dpds then TAG_XWMA_DPDS else TAG_XMA_SEEK;
              FindTable(Some(buf), tag).Err? ==>
                InMemoryEx(buf) == Outcome(Failure(FindTable(Some(buf), tag).error),
                                           WithFormat(FindFormatAndData(Some(buf)).value).(loopStart := LoopInfo(Some(buf)).value.start,
                                                                                            loopLength := LoopInfo(Some(buf)).value.length))
    ensures InMemory(buf).status == Success ==>
              (InMemoryEx(buf).status == Success <==> LoopInfo(Some(buf)).Ok?) &&
              (LoopInfo(Some(buf)).Ok? ==>
                 InMemoryEx(buf).data == InMemory(buf).data.(loopStart := LoopInfo(Some(buf)).value.start,
                                                             loopLength := LoopInfo(Some(buf)).value.length))
  {
  }

  /**
   * LoadWAVAudioInMemoryEx takes its table from the chunk the codec calls for:
   * the view points just past the header of the first 'dpds' chunk for a codec
   * that needs a packet table, of the first 'seek' chunk for XMA2, and there is
   * no view when the codec needs no table.
   */
  lemma {:induction false} ExTableFromChunk(buf: seq<uint8>)
    ensures InMemoryEx(buf).status == Success && InMemoryEx(buf).data.seek.Some? ==>
              var fd := FindFormatAndData(Some(buf)).value;
              var riff := LocateRiff(buf).value;
              var tag := if fd.tables.dpds then TAG_XWMA_DPDS else TAG_XMA_SEEK;
              (fd.tables.dpds || fd.tables.seek) &&
              ScanChunks(buf, riff.Body(), riff.End(), tag).Found? &&
              InMemoryEx(buf).data.seek.value == ScanChunks(buf, riff.Body(), riff.End(), tag).offset + RIFF_CHUNK_SIZE &&
              SizeAt(buf, ScanChunks(buf, riff.Body(), riff.End(), tag).offset) == 4 * InMemoryEx(buf).data.seekCount
    ensures InMemoryEx(buf).status == Success && FindFormatAndData(Some(buf)).value.tables == NO_TABLES ==>
              InMemoryEx(buf).data.seek.None? && InMemoryEx(buf).data.seekCount == 0
    // a codec that needs a table, in a file without that chunk, still loads: no view and no entries
    ensures FindFormatAndData(Some(buf)).Ok? && LoopInfo(Some(buf)).Ok? && FindFormatAndData(Some(buf)).value.tables != NO_TABLES ==>
              var riff := LocateRiff(buf).value;
              var tag := if FindFormatAndData(Some(buf)).value.tables.dpds then TAG_XWMA_DPDS else TAG_XMA_SEEK;
              ScanChunks(buf, riff.Body(), riff.End(), tag).Absent? ==>
                InMemoryEx(buf).status == Success && InMemoryEx(buf).data.seek.None? && InMemoryEx(buf).data.seekCount == 0
  {
  }

  /** An xWMA container has no loop: the loop search returns none without walking its chunks. */
  lemma {:induction false} XwmaHasNoLoop(buf: seq<uint8>)
    requires LocateRiff(buf).Ok? && LocateRiff(buf).value.form == TAG_XWMA_FILE
    ensures LoopInfo(Some(buf)) == Ok(NO_LOOP)
  {
  }

  /**
   * The outcomes of the loop search. A buffer too short for a RIFF header or a
   * container of another form type fails with E_FAIL; the RIFF lookup's own
   * failure is returned; in a WAVE container, a 'wsmp' or 'smpl' chunk that
   * runs past the buffer is HandleEof, the first usable 'wsmp' loop wins, then
   * the 'smpl' chunk's first forward loop, and a file with neither chunk has
   * no loop.
   */
  lemma {:induction false} LoopInfoOutcomes(buf: seq<uint8>)
    ensures LoopInfo(None) == Err(EPointer)
    ensures |buf| < MIN_RIFF_SIZE ==> LoopInfo(Some(buf)) == Err(EFail)
    ensures MIN_RIFF_SIZE <= |buf| && LocateRiff(buf).Err? ==> LoopInfo(Some(buf)) == Err(LocateRiff(buf).error)
    ensures (MIN_RIFF_SIZE <= |buf| && LocateRiff(buf).Ok? && !IsAudioForm(LocateRiff(buf).value.form)) ==>
              LoopInfo(Some(buf)) == Err(EFail)
    ensures MIN_RIFF_SIZE <= |buf| && LocateRiff(buf).Ok? && LocateRiff(buf).value.form == TAG_WAVE_FILE ==>
              var riff := LocateRiff(buf).value;
              var wsmp := ScanChunks(buf, riff.Body(), riff.End(), TAG_DLS_SAMPLE);
              var smpl := ScanChunks(buf, riff.Body(), riff.End(), TAG_MIDI_SAMPLE);
              if riff.Body() + RIFF_CHUNK_SIZE > |buf| then LoopInfo(Some(buf)) == Err(HandleEof)
              else if wsmp.Overrun? then LoopInfo(Some(buf)) == Err(ReadPastEnd)
              // a 'wsmp' chunk that runs past the buffer
              else if wsmp.Found? && wsmp.offset + RIFF_CHUNK_SIZE + SizeAt(buf, wsmp.offset) > |buf| then
                LoopInfo(Some(buf)) == Err(HandleEof)
              else if wsmp.Found? && DlsLoop(buf, PayloadAt(buf, wsmp.offset)).Some? then
                LoopInfo(Some(buf)) == Ok(DlsLoop(buf, PayloadAt(buf, wsmp.offset)).value)
              else if smpl.Overrun? then LoopInfo(Some(buf)) == Err(ReadPastEnd)
              // neither chunk gives a loop
              else if smpl.Absent? then LoopInfo(Some(buf)) == Ok(NO_LOOP)
              // a 'smpl' chunk that runs past the buffer
              else if smpl.offset + RIFF_CHUNK_SIZE + SizeAt(buf, smpl.offset) > |buf| then LoopInfo(Some(buf)) == Err(HandleEof)
              else if MidiLoop(buf, PayloadAt(buf, smpl.offset)).Some? then
                LoopInfo(Some(buf)) == Ok(MidiLoop(buf, PayloadAt(buf, smpl.offset)).value)
              else LoopInfo(Some(buf)) == Ok(NO_LOOP)
  {
  }

  /**
   * A MIDI loop record's end sample is inclusive: the loop region ends at
   * start + length - 1 == end, modulo 2^32.
   */
  lemma {:induction false} MidiLoopEndInclusive(buf: seq<uint8>, loops: nat, j: nat)
    requires loops + (j + 1) * 24 <= |buf|
    ensures var l := MidiRegion(buf, loops, j);
            (l.start + l.length) % 0x1_0000_0000 == (U32(buf, loops + j * 24 + MIDI_LOOP_END_OFFSET) + 1) % 0x1_0000_0000
  {
    var start: int := U32(buf, loops + j * 24 + MIDI_LOOP_START_OFFSET);
    var end: int := U32(buf, loops + j * 24 + MIDI_LOOP_END_OFFSET);
    var l := MidiRegion(buf, loops, j);
    assert (l.length - (end - start + 1)) % 0x1_0000_0000 == 0;
  }

  /** A U32 read inside a prefix of the buffer reads the same value as in the whole buffer. */
  lemma {:induction false} U32Prefix(buf: seq<uint8>, n: nat, p: nat)
    requires n <= |buf| && p + 4 <= n
    ensures U32(buf[..n], p) == U32(buf, p)
  {
    assert buf[..n][p .. p + 4] == buf[p .. p + 4];
    U32Local(buf[..n], p, buf, p);
  }

  /**
   * A chunk the walk finds in a prefix of the buffer, within a region, is
   * found at the same offset in the whole buffer and any region that extends
   * it: the headers the walk passes are the same bytes.
   */
  lemma {:induction false} ScanPrefix(buf: seq<uint8>, n: nat, ptr: nat, e1: nat, e2: nat, tag: uint32)
    requires n <= |buf| && e1 <= e2
    requires ScanChunks(buf[..n], ptr, e1, tag).Found?
    ensures ScanChunks(buf, ptr, e2, tag) == ScanChunks(buf[..n], ptr, e1, tag)
    decreases e1 - ptr
  {
    var pre := buf[..n];
    U32Prefix(buf, n, ptr);
    U32Prefix(buf, n, ptr + CHUNK_SIZE_OFFSET);
    if TagAt(pre, ptr) != tag {
      ScanPrefix(buf, n, NextHeader(pre, ptr), e1, e2, tag);
    }
  }

  /** The RIFF header found in a prefix of the buffer is the one found in the whole buffer. */
  lemma {:induction false} PrefixRiff(buf: seq<uint8>, n: nat)
    requires n <= |buf| && LocateRiff(buf[..n]).Ok?
    ensures LocateRiff(buf) == LocateRiff(buf[..n])
  {
    var riff := LocateRiff(buf[..n]).value;
    ScanPrefix(buf, n, 0, n, |buf|, TAG_RIFF);
    U32Prefix(buf, n, riff.offset + CHUNK_SIZE_OFFSET);
    U32Prefix(buf, n, riff.offset + RIFF_FORM_OFFSET);
  }

  /** A chunk found in the RIFF region of a prefix is found in the whole buffer, with the same payload span. */
  lemma {:induction false} PrefixPayload(buf: seq<uint8>, n: nat, riff: Riff, tag: uint32)
    requires n <= |buf| && ScanChunks(buf[..n], riff.Body(), riff.End(), tag).Found?
    ensures ScanChunks(buf, riff.Body(), riff.End(), tag) == ScanChunks(buf[..n], riff.Body(), riff.End(), tag)
    ensures PayloadAt(buf, ScanChunks(buf, riff.Body(), riff.End(), tag).offset) ==
            PayloadAt(buf[..n], ScanChunks(buf[..n], riff.Body(), riff.End(), tag).offset)
  {
    ScanPrefix(buf, n, riff.Body(), riff.End(), riff.End(), tag);
    U32Prefix(buf, n, ScanChunks(buf[..n], riff.Body(), riff.End(), tag).offset + CHUNK_SIZE_OFFSET);
  }

  /**
   * A file cut short of the end of its audio is not loaded: the parse of every
   * prefix that does not hold the whole 'data' payload fails, either with an
   * HRESULT or with ReadPastEnd, where the walk reads a chunk header that the
   * cut has removed.
   */
  lemma {:induction false} TruncatedFileFails(buf: seq<uint8>, n: nat)
    ensures FindFormatAndData(Some(buf)).Ok? && n < FindFormatAndData(Some(buf)).value.data.End() ==>
              FindFormatAndData(Some(buf[..n])).Err?
  {
    if FindFormatAndData(Some(buf)).Ok? && n < FindFormatAndData(Some(buf)).value.data.End() &&
       FindFormatAndData(Some(buf[..n])).Ok? {
      PrefixRiff(buf, n);
      PrefixPayload(buf, n, LocateRiff(buf).value, TAG_DATA);
    }
  }

  /** Both entry points fail on a file cut short of the end of its audio, with an HRESULT or with ReadPastEnd. */
  lemma {:induction false} TruncatedLoadFails(buf: seq<uint8>, n: nat)
    ensures InMemoryEx(buf).status == Success && n < InMemoryEx(buf).data.startAudio.value + InMemoryEx(buf).data.audioBytes ==>
              InMemoryEx(buf[..n]).status.Failure? && InMemory(buf[..n]).status.Failure?
  {
    TruncatedFileFails(buf, n);
  }
}
