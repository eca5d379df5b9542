/**
 * The in-memory WAV decoder of WAVLoader.cpp: FindFormatAndData, FindLoopInfo,
 * FindTable and the two entry points built from them. The caller's buffer is a
 * byte sequence; every pointer the loader hands out is an offset into it.
 */
module WavLoader {
  import opened Common
  import opened WavFormat
  import opened ChunkScan

  /**
   * The HRESULT failures the loader returns, plus ReadPastEnd: the input on
   * which the C++ code would read beyond the end of the caller's buffer.
   */
  datatype Error =
    | EPointer      // E_POINTER
    | EInvalidArg   // E_INVALIDARG
    | EFail         // E_FAIL
    | HandleEof     // HRESULT_FROM_WIN32(ERROR_HANDLE_EOF)
    | InvalidData   // HRESULT_FROM_WIN32(ERROR_INVALID_DATA)
    | NotSupported  // HRESULT_FROM_WIN32(ERROR_NOT_SUPPORTED)
    | ReadPastEnd   // undefined behaviour in the C++ code

  datatype Result<T> = Ok(value: T) | Err(error: Error)
  {
    predicate IsFailure() { Err? }

    function PropagateFailure<U>(): Result<U>
      requires Err?
    {
      Err(error)
    }

    function Extract(): T
      requires Ok?
    {
      value
    }
  }

  /** The HRESULT of an entry point: S_OK or a failure. */
  datatype Status = Success | Failure(error: Error)

  /** Two chunk headers, a form type and a WAVEFORMAT: the smallest buffer the format parser looks at. */
  const MIN_WAV_SIZE: nat := RIFF_CHUNK_SIZE * 2 + 4 + WAVEFORMAT_SIZE

  /** The smallest buffer FindLoopInfo and FindTable look at: a chunk header and a form type. */
  const MIN_RIFF_SIZE: nat := RIFF_CHUNK_SIZE + 4

  // ---------------------------------------------------------------------------
  // The RIFF container
  // ---------------------------------------------------------------------------

  /** The outer RIFF chunk: its header offset, declared size and form type. */
  datatype Riff = Riff(offset: nat, size: uint32, form: uint32)
  {
    /** The first sub-chunk header, just past the 12-byte RIFF header. */
    function Body(): nat { offset + RIFF_CHUNK_HEADER_SIZE }

    /** The end of the region the sub-chunk walks cover: mSize bytes from the body. */
    function End(): nat { Body() + size }
  }

  /**
   * The common prologue of the three parsers: the first 'RIFF' chunk of the
   * buffer, whose size must be at least 4; the form type is read after that
   * check.
   */
  function LocateRiff(buf: seq<uint8>): (r: Result<Riff>)
    ensures r.Ok? <==> ScanChunks(buf, 0, |buf|, TAG_RIFF).Found? &&
                       SizeAt(buf, ScanChunks(buf, 0, |buf|, TAG_RIFF).offset) >= 4 &&
                       ScanChunks(buf, 0, |buf|, TAG_RIFF).offset + RIFF_CHUNK_HEADER_SIZE <= |buf|
    ensures r.Ok? ==> ScanChunks(buf, 0, |buf|, TAG_RIFF) == Found(r.value.offset) &&
                      r.value.size == SizeAt(buf, r.value.offset) &&
                      r.value.form == U32(buf, r.value.offset + RIFF_FORM_OFFSET)
    // no 'RIFF' chunk, or one too small to hold a form type, is E_FAIL; a form type past the buffer is ReadPastEnd
    ensures r == Err(EFail) <==> !ScanChunks(buf, 0, |buf|, TAG_RIFF).Found? ||
                                 SizeAt(buf, ScanChunks(buf, 0, |buf|, TAG_RIFF).offset) < 4
    ensures r.Err? ==> r.error in {EFail, ReadPastEnd}
  {
    NoOverrunInsideBuffer(buf, 0, |buf|, TAG_RIFF);
    var s := ScanChunks(buf, 0, |buf|, TAG_RIFF);
    if !s.Found? || SizeAt(buf, s.offset) < 4 then Err(EFail)
    else if s.offset + RIFF_CHUNK_HEADER_SIZE > |buf| then Err(ReadPastEnd)
    else Ok(Riff(s.offset, SizeAt(buf, s.offset), U32(buf, s.offset + RIFF_FORM_OFFSET)))
  }

  /** The form types the format parser and FindTable accept. */
  predicate IsAudioForm(form: uint32)
  {
    form == TAG_WAVE_FILE || form == TAG_XWMA_FILE
  }

  /** A chunk payload: its first byte and its declared size. */
  datatype Span = Span(start: nat, size: uint32)
  {
    function End(): nat { start + size }
  }

  /** The payload of the chunk whose header is at h. */
  function PayloadAt(buf: seq<uint8>, h: nat): Span
    requires Readable(buf, h)
  {
    Span(h + RIFF_CHUNK_SIZE, SizeAt(buf, h))
  }

  /** The first chunk tagged `tag` in the container, or ReadPastEnd when the walk overruns the buffer. */
  function FindInRiff(buf: seq<uint8>, riff: Riff, tag: uint32): (r: Result<Option<Span>>)
    ensures r.Ok? && r.value.Some? <==> ScanChunks(buf, riff.Body(), riff.End(), tag).Found?
    ensures r.Ok? && r.value.Some? ==>
              var h := ScanChunks(buf, riff.Body(), riff.End(), tag).offset;
              r.value.value.start == h + RIFF_CHUNK_SIZE && r.value.value.size == SizeAt(buf, h)
    ensures r.Err? <==> ScanChunks(buf, riff.Body(), riff.End(), tag).Overrun?
    ensures r.Err? ==> r.error == ReadPastEnd
  {
    match ScanChunks(buf, riff.Body(), riff.End(), tag)
    case Overrun => Err(ReadPastEnd)
    case Absent => Ok(None)
    case Found(h) => Ok(Some(PayloadAt(buf, h)))
  }

  // ---------------------------------------------------------------------------
  // FindFormatAndData
  // ---------------------------------------------------------------------------

  /** Whether the codec needs a decoded-packet table (xWMA 'dpds') or a seek table (XMA2 'seek'). */
  datatype Tables = Tables(dpds: bool, seek: bool)

  const NO_TABLES := Tables(false, false)

  /** The codecs the loader accepts. */
  predicate KnownFormatTag(tag: uint16)
  {
    tag in {WAVE_FORMAT_PCM, WAVE_FORMAT_IEEE_FLOAT, WAVE_FORMAT_ADPCM, WAVE_FORMAT_WMAUDIO2,
            WAVE_FORMAT_WMAUDIO3, WAVE_FORMAT_XMA2, WAVE_FORMAT_EXTENSIBLE}
  }

  /** The SubFormat of an extensible format record at p is the base GUID with Data1 replaced. */
  predicate HasBaseSubFormat(buf: seq<uint8>, p: nat)
    requires p + WAVEFORMATEXTENSIBLE_SIZE <= |buf|
  {
    buf[p + WFEX_SUBFORMAT_OFFSET + 4 .. p + WAVEFORMATEXTENSIBLE_SIZE] == WFEX_BASE_SUFFIX
  }

  /** Data1 of the SubFormat of an extensible format record at p. */
  function SubFormatData1(buf: seq<uint8>, p: nat): uint32
    requires p + WAVEFORMATEXTENSIBLE_SIZE <= |buf|
  {
    U32(buf, p + WFEX_SUBFORMAT_OFFSET)
  }

  /**
   * The validation switch over the format record held by the 'fmt ' payload
   * `fmt`: which formats are accepted, how large their records must be, and
   * which table each needs.
   */
  function ClassifyFormat(buf: seq<uint8>, fmt: Span): (r: Result<Tables>)
    requires PCMWAVEFORMAT_SIZE <= fmt.size && fmt.End() <= |buf|
    ensures r.Ok? ==> !(r.value.dpds && r.value.seek)
    ensures !KnownFormatTag(U16(buf, fmt.start)) ==> r.Err?
    ensures r.Ok? ==> KnownFormatTag(U16(buf, fmt.start))
    ensures U16(buf, fmt.start) in {WAVE_FORMAT_PCM, WAVE_FORMAT_IEEE_FLOAT} ==> r == Ok(NO_TABLES)
    // every other accepted record holds the cbSize extra bytes it declares
    ensures r.Ok? && U16(buf, fmt.start) !in {WAVE_FORMAT_PCM, WAVE_FORMAT_IEEE_FLOAT} ==>
              WAVEFORMATEX_SIZE <= fmt.size &&
              WAVEFORMATEX_SIZE + U16(buf, fmt.start + WFX_CB_SIZE_OFFSET) <= fmt.size
    ensures r.Ok? ==> (r.value.seek <==> U16(buf, fmt.start) == WAVE_FORMAT_XMA2)
    ensures r.Ok? ==> (r.value.dpds <==>
              U16(buf, fmt.start) in {WAVE_FORMAT_WMAUDIO2, WAVE_FORMAT_WMAUDIO3} ||
              (U16(buf, fmt.start) == WAVE_FORMAT_EXTENSIBLE && WAVEFORMATEXTENSIBLE_SIZE <= fmt.size &&
               SubFormatData1(buf, fmt.start) in {WAVE_FORMAT_WMAUDIO2 as uint32, WAVE_FORMAT_WMAUDIO3 as uint32}))
    ensures r.Ok? && U16(buf, fmt.start) == WAVE_FORMAT_XMA2 ==>
              XMA2WAVEFORMATEX_SIZE <= fmt.size && U16(buf, fmt.start + WFX_CB_SIZE_OFFSET) >= XMA2WAVEFORMATEX_SIZE - WAVEFORMATEX_SIZE
    ensures r.Ok? && U16(buf, fmt.start) == WAVE_FORMAT_ADPCM ==>
              U16(buf, fmt.start + WFX_CB_SIZE_OFFSET) >= MSADPCM_FORMAT_EXTRA_BYTES
    ensures r.Ok? && U16(buf, fmt.start) == WAVE_FORMAT_EXTENSIBLE ==>
              WAVEFORMATEXTENSIBLE_SIZE <= fmt.size && HasBaseSubFormat(buf, fmt.start) &&
              U16(buf, fmt.start + WFX_CB_SIZE_OFFSET) >= WAVEFORMATEXTENSIBLE_SIZE - WAVEFORMATEX_SIZE &&
              SubFormatData1(buf, fmt.start) in {WAVE_FORMAT_PCM as uint32, WAVE_FORMAT_IEEE_FLOAT as uint32,
                                                 WAVE_FORMAT_WMAUDIO2 as uint32, WAVE_FORMAT_WMAUDIO3 as uint32}
    ensures r.Err? ==> r.error in {EFail, NotSupported}
    // outcome per case: the size checks fail with E_FAIL, an unsupported codec with NotSupported
    ensures var tag := U16(buf, fmt.start);
            tag !in {WAVE_FORMAT_PCM, WAVE_FORMAT_IEEE_FLOAT} ==>
              if fmt.size < WAVEFORMATEX_SIZE then r == Err(EFail)
              else
                var cbSize := U16(buf, fmt.start + WFX_CB_SIZE_OFFSET);
                if fmt.size < WAVEFORMATEX_SIZE + cbSize then r == Err(EFail)
                else if tag in {WAVE_FORMAT_WMAUDIO2, WAVE_FORMAT_WMAUDIO3} then r == Ok(Tables(true, false))
                else if tag == WAVE_FORMAT_XMA2 then
                  r == if XMA2WAVEFORMATEX_SIZE <= fmt.size && XMA2WAVEFORMATEX_SIZE - WAVEFORMATEX_SIZE <= cbSize
                       then Ok(Tables(false, true)) else Err(EFail)
                else if tag == WAVE_FORMAT_ADPCM then
                  r == if WAVEFORMATEX_SIZE + MSADPCM_FORMAT_EXTRA_BYTES <= fmt.size && MSADPCM_FORMAT_EXTRA_BYTES <= cbSize
                       then Ok(NO_TABLES) else Err(EFail)
                else if tag == WAVE_FORMAT_EXTENSIBLE then
                  if fmt.size < WAVEFORMATEXTENSIBLE_SIZE || cbSize < WAVEFORMATEXTENSIBLE_SIZE - WAVEFORMATEX_SIZE then r == Err(EFail)
                  else if !HasBaseSubFormat(buf, fmt.start) then r == Err(NotSupported)
                  else
                    var data1 := SubFormatData1(buf, fmt.start);
                    r == if data1 in {WAVE_FORMAT_PCM as uint32, WAVE_FORMAT_IEEE_FLOAT as uint32} then Ok(NO_TABLES)
                         else if data1 in {WAVE_FORMAT_WMAUDIO2 as uint32, WAVE_FORMAT_WMAUDIO3 as uint32} then Ok(Tables(true, false))
                         else Err(NotSupported)
                else r == Err(NotSupported)
  {
    var p := fmt.start;
    var tag := U16(buf, p);
    if tag == WAVE_FORMAT_PCM || tag == WAVE_FORMAT_IEEE_FLOAT then Ok(NO_TABLES)
    else if fmt.size < WAVEFORMATEX_SIZE then Err(EFail)
    else
      var cbSize := U16(buf, p + WFX_CB_SIZE_OFFSET);
      if fmt.size < WAVEFORMATEX_SIZE + cbSize then Err(EFail)
      else if tag == WAVE_FORMAT_WMAUDIO2 || tag == WAVE_FORMAT_WMAUDIO3 then Ok(Tables(true, false))
      else if tag == WAVE_FORMAT_XMA2 then
        if fmt.size < XMA2WAVEFORMATEX_SIZE || cbSize < XMA2WAVEFORMATEX_SIZE - WAVEFORMATEX_SIZE then Err(EFail)
        else Ok(Tables(false, true))
      else if tag == WAVE_FORMAT_ADPCM then
        if fmt.size < WAVEFORMATEX_SIZE + MSADPCM_FORMAT_EXTRA_BYTES || cbSize < MSADPCM_FORMAT_EXTRA_BYTES then Err(EFail)
        else Ok(NO_TABLES)
      else if tag == WAVE_FORMAT_EXTENSIBLE then
        if fmt.size < WAVEFORMATEXTENSIBLE_SIZE || cbSize < WAVEFORMATEXTENSIBLE_SIZE - WAVEFORMATEX_SIZE then Err(EFail)
        else if !HasBaseSubFormat(buf, p) then Err(NotSupported)
        else
          var data1 := SubFormatData1(buf, p);
          if data1 == WAVE_FORMAT_PCM as uint32 || data1 == WAVE_FORMAT_IEEE_FLOAT as uint32 then Ok(NO_TABLES)
          else if data1 == WAVE_FORMAT_WMAUDIO2 as uint32 || data1 == WAVE_FORMAT_WMAUDIO3 as uint32 then Ok(Tables(true, false))
          else Err(NotSupported)
      else Err(NotSupported)
  }

  /**
   * The field copy into a WAVFormat as the loader writes it: all seven
   * WAVEFORMATEX fields, cbSize included, whatever the size of the 'fmt '
   * chunk. For a 16-byte PCMWAVEFORMAT the cbSize bytes are the two bytes after
   * the chunk, which may lie past the end of the buffer.
   */
  function ReadFormatAsWritten(buf: seq<uint8>, p: nat): (f: WAVFormat)
    requires p + WAVEFORMATEX_SIZE <= |buf|
    ensures f.cbSize == U16(buf, p + WFX_CB_SIZE_OFFSET)
    ensures f == ReadFormat(buf, Span(p, WAVEFORMATEX_SIZE))
  {
    WAVFormat(U16(buf, p), U16(buf, p + WFX_CHANNELS_OFFSET), U32(buf, p + WFX_SAMPLE_RATE_OFFSET),
              U32(buf, p + WFX_AVG_BYTES_OFFSET), U16(buf, p + WFX_BLOCK_ALIGN_OFFSET),
              U16(buf, p + WFX_BITS_OFFSET), U16(buf, p + WFX_CB_SIZE_OFFSET))
  }

  /**
   * The field copy into a WAVFormat from the format record held by the 'fmt '
   * payload: the six PCMWAVEFORMAT fields, and cbSize only when the record is
   * a WAVEFORMATEX; a PCMWAVEFORMAT has no extra bytes.
   */
  function ReadFormat(buf: seq<uint8>, fmt: Span): (f: WAVFormat)
    requires PCMWAVEFORMAT_SIZE <= fmt.size && fmt.End() <= |buf|
    ensures f.formatTag == U16(buf, fmt.start) && f.channels == U16(buf, fmt.start + WFX_CHANNELS_OFFSET)
    ensures f.sampleRate == U32(buf, fmt.start + WFX_SAMPLE_RATE_OFFSET) && f.avgByteRate == U32(buf, fmt.start + WFX_AVG_BYTES_OFFSET)
    ensures f.blockAlignment == U16(buf, fmt.start + WFX_BLOCK_ALIGN_OFFSET) && f.bitsPerSample == U16(buf, fmt.start + WFX_BITS_OFFSET)
    ensures f.cbSize == if fmt.size < WAVEFORMATEX_SIZE then 0 else U16(buf, fmt.start + WFX_CB_SIZE_OFFSET)
  {
    var p := fmt.start;
    WAVFormat(U16(buf, p), U16(buf, p + WFX_CHANNELS_OFFSET), U32(buf, p + WFX_SAMPLE_RATE_OFFSET),
              U32(buf, p + WFX_AVG_BYTES_OFFSET), U16(buf, p + WFX_BLOCK_ALIGN_OFFSET),
              U16(buf, p + WFX_BITS_OFFSET),
              if fmt.size < WAVEFORMATEX_SIZE then 0 else U16(buf, p + WFX_CB_SIZE_OFFSET))
  }

  /** What FindFormatAndData hands back: the format, the audio payload and the table flags. */
  datatype FormatAndData = FormatAndData(format: WAVFormat, data: Span, tables: Tables)

  /** The 'fmt ' payload of the container: present, at least a PCMWAVEFORMAT, inside the buffer. */
  predicate IsFormatSpan(buf: seq<uint8>, riff: Riff, fmt: Span)
  {
    ScanChunks(buf, riff.Body(), riff.End(), TAG_FORMAT).Found? &&
    fmt == PayloadAt(buf, ScanChunks(buf, riff.Body(), riff.End(), TAG_FORMAT).offset) &&
    PCMWAVEFORMAT_SIZE <= fmt.size && fmt.End() <= |buf|
  }

  /** The 'data' payload of the container: the first 'data' chunk, non-empty, inside the buffer. */
  predicate IsDataSpan(buf: seq<uint8>, riff: Riff, data: Span)
  {
    ScanChunks(buf, riff.Body(), riff.End(), TAG_DATA).Found? &&
    data == PayloadAt(buf, ScanChunks(buf, riff.Body(), riff.End(), TAG_DATA).offset) &&
    0 < data.size && data.End() <= |buf|
  }

  /**
   * FindFormatAndData past the RIFF lookup, in the container `riff`: the room
   * for a first sub-chunk header, the first 'fmt ' chunk and its validation,
   * then the first 'data' chunk. Each step's failure, in the order the loader
   * takes them, and the success that follows when every step passes.
   */
  function FormatAndDataIn(buf: seq<uint8>, riff: Riff): (r: Result<FormatAndData>)
    ensures var fmtScan := ScanChunks(buf, riff.Body(), riff.End(), TAG_FORMAT);
            var dataScan := ScanChunks(buf, riff.Body(), riff.End(), TAG_DATA);
            if riff.Body() + RIFF_CHUNK_SIZE > |buf| then r == Err(HandleEof)
            else if fmtScan.Overrun? then r == Err(ReadPastEnd)
            // no 'fmt ' chunk, or one too small for a PCMWAVEFORMAT
            else if fmtScan.Absent? || SizeAt(buf, fmtScan.offset) < PCMWAVEFORMAT_SIZE then r == Err(EFail)
            // a 'fmt ' payload that runs past the buffer
            else if fmtScan.offset + RIFF_CHUNK_SIZE + SizeAt(buf, fmtScan.offset) > |buf| then r == Err(HandleEof)
            else
              var fmt := Span(fmtScan.offset + RIFF_CHUNK_SIZE, SizeAt(buf, fmtScan.offset));
              if ClassifyFormat(buf, fmt).Err? then r == Err(ClassifyFormat(buf, fmt).error)
              else if dataScan.Overrun? then r == Err(ReadPastEnd)
              // no 'data' chunk, or an empty one
              else if dataScan.Absent? || SizeAt(buf, dataScan.offset) == 0 then r == Err(InvalidData)
              // a 'data' payload that runs past the buffer
              else if dataScan.offset + RIFF_CHUNK_SIZE + SizeAt(buf, dataScan.offset) > |buf| then r == Err(HandleEof)
              else r == Ok(FormatAndData(ReadFormat(buf, fmt), Span(dataScan.offset + RIFF_CHUNK_SIZE, SizeAt(buf, dataScan.offset)),
                                         ClassifyFormat(buf, fmt).value))
  {
    if riff.Body() + RIFF_CHUNK_SIZE > |buf| then Err(HandleEof)
    else
      var fmtChunk :- FindInRiff(buf, riff, TAG_FORMAT);
      if fmtChunk.None? || fmtChunk.value.size < PCMWAVEFORMAT_SIZE then Err(EFail)
      else
        var fmt := fmtChunk.value;
        if fmt.End() > |buf| then Err(HandleEof)
        else
          var tables :- ClassifyFormat(buf, fmt);
          // the second end-of-buffer check before the 'data' walk repeats the one above
          var dataChunk :- FindInRiff(buf, riff, TAG_DATA);
          if dataChunk.None? || dataChunk.value.size == 0 then Err(InvalidData)
          else if dataChunk.value.End() > |buf| then Err(HandleEof)
          else Ok(FormatAndData(ReadFormat(buf, fmt), dataChunk.value, tables))
  }

  /**
   * FindFormatAndData: locate the RIFF 'WAVE' (or 'XWMA') container, validate
   * its first 'fmt ' chunk and locate its first 'data' chunk.
   */
  function FindFormatAndData(wavData: Option<seq<uint8>>): (r: Result<FormatAndData>)
    ensures wavData.None? ==> r == Err(EPointer)
    ensures wavData.Some? && |wavData.value| < MIN_WAV_SIZE ==> r == Err(EFail)
    ensures wavData.Some? && MIN_WAV_SIZE <= |wavData.value| && LocateRiff(wavData.value).Err? ==>
              r == Err(LocateRiff(wavData.value).error)
    ensures (wavData.Some? && MIN_WAV_SIZE <= |wavData.value| && LocateRiff(wavData.value).Ok? &&
             !IsAudioForm(LocateRiff(wavData.value).value.form)) ==> r == Err(EFail)
    // past the RIFF lookup, the outcome of each step is FormatAndDataIn's
    ensures wavData.Some? && MIN_WAV_SIZE <= |wavData.value| && LocateRiff(wavData.value).Ok? &&
            IsAudioForm(LocateRiff(wavData.value).value.form) ==>
              r == FormatAndDataIn(wavData.value, LocateRiff(wavData.value).value)
    ensures r.Ok? ==>
              var buf := wavData.value;
              MIN_WAV_SIZE <= |buf| && LocateRiff(buf).Ok? && IsAudioForm(LocateRiff(buf).value.form) &&
              (exists fmt :: IsFormatSpan(buf, LocateRiff(buf).value, fmt) &&
                             ClassifyFormat(buf, fmt) == Ok(r.value.tables) &&
                             r.value.format == ReadFormat(buf, fmt)) &&
              IsDataSpan(buf, LocateRiff(buf).value, r.value.data)
    ensures r.Ok? ==> !(r.value.tables.dpds && r.value.tables.seek)
  {
    if wavData.None? then Err(EPointer)
    else
      var buf := wavData.value;
      if |buf| < MIN_WAV_SIZE then Err(EFail)
      else
        var riff :- LocateRiff(buf);
        if !IsAudioForm(riff.form) then Err(EFail)
        else FormatAndDataIn(buf, riff)
  }

  // ---------------------------------------------------------------------------
  // FindLoopInfo
  // ---------------------------------------------------------------------------

  /** A loop region in samples: the loader's (loopStart, loopLength) pair. */
  datatype LoopRegion = LoopRegion(start: uint32, length: uint32)

  /** No loop: what FindLoopInfo leaves when the file has none. */
  const NO_LOOP := LoopRegion(0, 0)

  /** DLS loop record j of the table at `loops` is a forward or release loop. */
  predicate DlsUsable(buf: seq<uint8>, loops: nat, j: nat)
    requires loops + (j + 1) * 16 <= |buf|
  {
    var t := U32(buf, loops + j * 16 + DLS_LOOP_TYPE_OFFSET);
    t == DLS_LOOP_FORWARD || t == DLS_LOOP_RELEASE
  }

  /** The region of DLS loop record j: its start and length, verbatim. */
  function DlsRegion(buf: seq<uint8>, loops: nat, j: nat): LoopRegion
    requires loops + (j + 1) * 16 <= |buf|
  {
    LoopRegion(U32(buf, loops + j * 16 + DLS_LOOP_START_OFFSET), U32(buf, loops + j * 16 + DLS_LOOP_LENGTH_OFFSET))
  }

  /** MIDI loop record j of the table at `loops` is a forward loop. */
  predicate MidiUsable(buf: seq<uint8>, loops: nat, j: nat)
    requires loops + (j + 1) * 24 <= |buf|
  {
    U32(buf, loops + j * 24 + MIDI_LOOP_TYPE_OFFSET) == MIDI_LOOP_FORWARD
  }

  /** The region of MIDI loop record j: the start, and end - start + 1 in uint32 arithmetic. */
  function MidiRegion(buf: seq<uint8>, loops: nat, j: nat): LoopRegion
    requires loops + (j + 1) * 24 <= |buf|
  {
    var start := U32(buf, loops + j * 24 + MIDI_LOOP_START_OFFSET);
    LoopRegion(start, Wrap32(U32(buf, loops + j * 24 + MIDI_LOOP_END_OFFSET) - start + 1))
  }

  /** The first forward-or-release DLS loop among records j .. count - 1. */
  function FirstDlsLoop(buf: seq<uint8>, loops: nat, count: nat, j: nat): Option<LoopRegion>
    requires loops + count * 16 <= |buf|
    decreases count - j
  {
    if j >= count then None
    else if DlsUsable(buf, loops, j) then Some(DlsRegion(buf, loops, j))
    else FirstDlsLoop(buf, loops, count, j + 1)
  }

  /** The first forward MIDI loop among records j .. count - 1. */
  function FirstMidiLoop(buf: seq<uint8>, loops: nat, count: nat, j: nat): Option<LoopRegion>
    requires loops + count * 24 <= |buf|
    decreases count - j
  {
    if j >= count then None
    else if MidiUsable(buf, loops, j) then Some(MidiRegion(buf, loops, j))
    else FirstMidiLoop(buf, loops, count, j + 1)
  }

  /** FirstDlsLoop picks the first forward-or-release record at or after j, and none when there is none. */
  lemma {:induction false} FirstDlsLoopIsFirst(buf: seq<uint8>, loops: nat, count: nat, j: nat)
    requires loops + count * 16 <= |buf|
    decreases count - j
    ensures FirstDlsLoop(buf, loops, count, j).None? <==> forall i :: j <= i < count ==> !DlsUsable(buf, loops, i)
    ensures FirstDlsLoop(buf, loops, count, j).Some? ==>
              exists k :: j <= k < count && DlsUsable(buf, loops, k) && FirstDlsLoop(buf, loops, count, j).value == DlsRegion(buf, loops, k) &&
                          forall i :: j <= i < k ==> !DlsUsable(buf, loops, i)
  {
    if j < count {
      if DlsUsable(buf, loops, j) {
        assert FirstDlsLoop(buf, loops, count, j).value == DlsRegion(buf, loops, j);
      } else {
        FirstDlsLoopIsFirst(buf, loops, count, j + 1);
        if FirstDlsLoop(buf, loops, count, j + 1).Some? {
          var k :| j + 1 <= k < count && DlsUsable(buf, loops, k) && FirstDlsLoop(buf, loops, count, j + 1).value == DlsRegion(buf, loops, k) &&
                   forall i :: j + 1 <= i < k ==> !DlsUsable(buf, loops, i);
          assert forall i :: j <= i < k ==> !DlsUsable(buf, loops, i);
        }
      }
    }
  }

  /** FirstMidiLoop picks the first forward record at or after j, and none when there is none. */
  lemma {:induction false} FirstMidiLoopIsFirst(buf: seq<uint8>, loops: nat, count: nat, j: nat)
    requires loops + count * 24 <= |buf|
    decreases count - j
    ensures FirstMidiLoop(buf, loops, count, j).None? <==> forall i :: j <= i < count ==> !MidiUsable(buf, loops, i)
    ensures FirstMidiLoop(buf, loops, count, j).Some? ==>
              exists k :: j <= k < count && MidiUsable(buf, loops, k) && FirstMidiLoop(buf, loops, count, j).value == MidiRegion(buf, loops, k) &&
                          forall i :: j <= i < k ==> !MidiUsable(buf, loops, i)
  {
    if j < count {
      if MidiUsable(buf, loops, j) {
        assert FirstMidiLoop(buf, loops, count, j).value == MidiRegion(buf, loops, j);
      } else {
        FirstMidiLoopIsFirst(buf, loops, count, j + 1);
        if FirstMidiLoop(buf, loops, count, j + 1).Some? {
          var k :| j + 1 <= k < count && MidiUsable(buf, loops, k) && FirstMidiLoop(buf, loops, count, j + 1).value == MidiRegion(buf, loops, k) &&
                   forall i :: j + 1 <= i < k ==> !MidiUsable(buf, loops, i);
          assert forall i :: j <= i < k ==> !MidiUsable(buf, loops, i);
        }
      }
    }
  }

  /**
   * The loop of a 'wsmp' payload: a RIFFDLSSample whose own size field places
   * the loop records, which must fit in the chunk.
   */
  function DlsLoop(buf: seq<uint8>, wsmp: Span): Option<LoopRegion>
    requires wsmp.End() <= |buf|
  {
    if wsmp.size < RIFF_DLS_SAMPLE_SIZE then None
    else
      var headerSize := U32(buf, wsmp.start);
      var count := U32(buf, wsmp.start + DLS_SAMPLE_COUNT_OFFSET);
      if wsmp.size < headerSize + count * 16 then None
      else FirstDlsLoop(buf, wsmp.start + headerSize, count, 0)
  }

  /** The loop of a 'smpl' payload: a RIFFMIDISample followed by its loop records, which must fit in the chunk. */
  function MidiLoop(buf: seq<uint8>, smpl: Span): Option<LoopRegion>
    requires smpl.End() <= |buf|
  {
    if smpl.size < RIFF_MIDI_SAMPLE_SIZE then None
    else
      var count := U32(buf, smpl.start + MIDI_SAMPLE_COUNT_OFFSET);
      if smpl.size < RIFF_MIDI_SAMPLE_SIZE + count * 24 then None
      else FirstMidiLoop(buf, smpl.start + RIFF_MIDI_SAMPLE_SIZE, count, 0)
  }

  /**
   * The 'smpl' step: walk from `from` over riff.size bytes to the first 'smpl'
   * chunk, and take the first forward loop of its records; a chunk that is not
   * wholly inside the buffer is an error.
   */
  function SmplLoop(buf: seq<uint8>, from: nat, riff: Riff): (r: Result<LoopRegion>)
    ensures r == Err(ReadPastEnd) <==> ScanChunks(buf, from, from + riff.size, TAG_MIDI_SAMPLE).Overrun?
    ensures ScanChunks(buf, from, from + riff.size, TAG_MIDI_SAMPLE).Absent? ==> r == Ok(NO_LOOP)
    ensures r == Err(HandleEof) <==>
              var s := ScanChunks(buf, from, from + riff.size, TAG_MIDI_SAMPLE);
              s.Found? && s.offset + RIFF_CHUNK_SIZE + SizeAt(buf, s.offset) > |buf|
    ensures r.Err? ==> r.error in {ReadPastEnd, HandleEof}
    // a payload inside the buffer gives the first forward loop of its records, or no loop
    ensures var s := ScanChunks(buf, from, from + riff.size, TAG_MIDI_SAMPLE);
            s.Found? && s.offset + RIFF_CHUNK_SIZE + SizeAt(buf, s.offset) <= |buf| ==>
              var smpl := Span(s.offset + RIFF_CHUNK_SIZE, SizeAt(buf, s.offset));
              r == Ok(if MidiLoop(buf, smpl).Some? then MidiLoop(buf, smpl).value else NO_LOOP)
  {
    match ScanChunks(buf, from, from + riff.size, TAG_MIDI_SAMPLE)
    case Overrun => Err(ReadPastEnd)
    case Absent => Ok(NO_LOOP)
    case Found(h) =>
      var smpl := PayloadAt(buf, h);
      if smpl.End() > |buf| then Err(HandleEof)
      else match MidiLoop(buf, smpl)
        case Some(l) => Ok(l)
        case None => Ok(NO_LOOP)
  }

  /**
   * The loop search of FindLoopInfo: the first usable loop of the first 'wsmp'
   * chunk, else the first forward loop of the first 'smpl' chunk, else no
   * loop. When `smplFromWsmp` holds and there is a 'wsmp' chunk, the 'smpl'
   * walk starts from the 'wsmp' payload instead of the container's first header.
   */
  function LoopSearch(wavData: Option<seq<uint8>>, smplFromWsmp: bool): Result<LoopRegion>
  {
    if wavData.None? then Err(EPointer)
    else
      var buf := wavData.value;
      if |buf| < MIN_RIFF_SIZE then Err(EFail)
      else
        var riff :- LocateRiff(buf);
        if riff.form == TAG_XWMA_FILE then Ok(NO_LOOP)
        else if riff.form != TAG_WAVE_FILE then Err(EFail)
        else if riff.Body() + RIFF_CHUNK_SIZE > |buf| then Err(HandleEof)
        else
          match ScanChunks(buf, riff.Body(), riff.End(), TAG_DLS_SAMPLE)
          case Overrun => Err(ReadPastEnd)
          case Absent => SmplLoop(buf, riff.Body(), riff)
          case Found(h) =>
            var wsmp := PayloadAt(buf, h);
            if wsmp.End() > |buf| then Err(HandleEof)
            else match DlsLoop(buf, wsmp)
              case Some(l) => Ok(l)
              case None => SmplLoop(buf, if smplFromWsmp then wsmp.start else riff.Body(), riff)
  }

  /**
   * FindLoopInfo as written: after a 'wsmp' chunk without a usable loop, the
   * 'smpl' walk starts from the 'wsmp' payload and reads its fields as chunk
   * headers.
   */
  function LoopInfoAsWritten(wavData: Option<seq<uint8>>): Result<LoopRegion>
  {
    LoopSearch(wavData, true)
  }

  /** What FindLoopInfo returns, with both chunk walks starting at the container's first header. */
  function LoopInfo(wavData: Option<seq<uint8>>): Result<LoopRegion>
  {
    LoopSearch(wavData, false)
  }

  /** The loop search over the records of one 'smpl' payload, with the source's for loop. */
  method ScanMidiLoops(buf: seq<uint8>, smpl: Span) returns (r: Option<LoopRegion>)
    requires smpl.End() <= |buf|
    ensures r == MidiLoop(buf, smpl)
  {
    if smpl.size < RIFF_MIDI_SAMPLE_SIZE {
      return None;
    }
    var count: nat := U32(buf, smpl.start + MIDI_SAMPLE_COUNT_OFFSET);
    if smpl.size < RIFF_MIDI_SAMPLE_SIZE + count * 24 {
      return None;
    }
    var loops := smpl.start + RIFF_MIDI_SAMPLE_SIZE;
    for j := 0 to count
      invariant FirstMidiLoop(buf, loops, count, j) == FirstMidiLoop(buf, loops, count, 0)
    {
      var record := loops + j * 24;
      if U32(buf, record + MIDI_LOOP_TYPE_OFFSET) == MIDI_LOOP_FORWARD {
        var start := U32(buf, record + MIDI_LOOP_START_OFFSET);
        return Some(LoopRegion(start, Wrap32(U32(buf, record + MIDI_LOOP_END_OFFSET) - start + 1)));
      }
    }
    return None;
  }

  /** The loop search over the records of one 'wsmp' payload, with the source's for loop. */
  method ScanDlsLoops(buf: seq<uint8>, wsmp: Span) returns (r: Option<LoopRegion>)
    requires wsmp.End() <= |buf|
    ensures r == DlsLoop(buf, wsmp)
  {
    if wsmp.size < RIFF_DLS_SAMPLE_SIZE {
      return None;
    }
    var headerSize: nat := U32(buf, wsmp.start);
    var count: nat := U32(buf, wsmp.start + DLS_SAMPLE_COUNT_OFFSET);
    if wsmp.size < headerSize + count * 16 {
      return None;
    }
    var loops := wsmp.start + headerSize;
    for j := 0 to count
      invariant FirstDlsLoop(buf, loops, count, j) == FirstDlsLoop(buf, loops, count, 0)
    {
      var record := loops + j * 16;
      var loopType := U32(buf, record + DLS_LOOP_TYPE_OFFSET);
      if loopType == DLS_LOOP_FORWARD || loopType == DLS_LOOP_RELEASE {
        return Some(LoopRegion(U32(buf, record + DLS_LOOP_START_OFFSET), U32(buf, record + DLS_LOOP_LENGTH_OFFSET)));
      }
    }
    return None;
  }

  /** The 'smpl' step of FindLoopInfo: one chunk walk, then the loop over its records. */
  method FindSmplLoop(buf: seq<uint8>, from: nat, riff: Riff) returns (r: Result<LoopRegion>)
    ensures r == SmplLoop(buf, from, riff)
  {
    var midiChunk := FindChunk(buf, from, riff.size, TAG_MIDI_SAMPLE);
    if midiChunk.Overrun? {
      return Err(ReadPastEnd);
    }
    if midiChunk.Found? {
      var smpl := PayloadAt(buf, midiChunk.offset);
      if smpl.End() > |buf| {
        return Err(HandleEof);
      }
      var midi := ScanMidiLoops(buf, smpl);
      if midi.Some? {
        return Ok(midi.value);
      }
    }
    return Ok(NO_LOOP);
  }

  /**
   * FindLoopInfo, step by step: the two chunk walks and the two loops over the
   * loop records. Both walks start at the container's first header; the code as
   * written restarts the 'smpl' walk at the 'wsmp' payload (LoopInfoAsWritten).
   */
  method FindLoopInfo(wavData: Option<seq<uint8>>) returns (r: Result<LoopRegion>)
    ensures r == LoopInfo(wavData)
  {
    if wavData.None? {
      return Err(EPointer);
    }
    var buf := wavData.value;
    if |buf| < MIN_RIFF_SIZE {
      return Err(EFail);
    }
    var riff :- LocateRiff(buf);
    if riff.form == TAG_XWMA_FILE {
      return Ok(NO_LOOP);
    }
    if riff.form != TAG_WAVE_FILE {
      return Err(EFail);
    }
    var ptr := riff.Body();
    if ptr + RIFF_CHUNK_SIZE > |buf| {
      return Err(HandleEof);
    }
    var dlsChunk := FindChunk(buf, ptr, riff.size, TAG_DLS_SAMPLE);
    if dlsChunk.Overrun? {
      return Err(ReadPastEnd);
    }
    if dlsChunk.Found? {
      var wsmp := PayloadAt(buf, dlsChunk.offset);
      if wsmp.End() > |buf| {
        return Err(HandleEof);
      }
      var dls := ScanDlsLoops(buf, wsmp);
      if dls.Some? {
        return Ok(dls.value);
      }
    }
    r := FindSmplLoop(buf, ptr, riff);
  }

  // ---------------------------------------------------------------------------
  // FindTable
  // ---------------------------------------------------------------------------

  /** A table of uint32 entries: its view into the buffer (None is nullptr) and its entry count. */
  datatype Table = Table(view: Option<nat>, count: uint32)

  const NO_TABLE := Table(None, 0)

  /** FindTable: the payload of the container's first chunk tagged `tag`, as whole uint32 entries. */
  function FindTable(wavData: Option<seq<uint8>>, tag: uint32): (r: Result<Table>)
    ensures wavData.None? ==> r == Err(EPointer)
    ensures r.Ok? ==> wavData.Some? && LocateRiff(wavData.value).Ok? && IsAudioForm(LocateRiff(wavData.value).value.form)
    ensures r.Ok? && r.value.view.Some? ==>
              var buf := wavData.value;
              var s := ScanChunks(buf, LocateRiff(buf).value.Body(), LocateRiff(buf).value.End(), tag);
              s.Found? &&
              r.value.view.value == s.offset + RIFF_CHUNK_SIZE &&
              SizeAt(buf, s.offset) == 4 * r.value.count &&
              r.value.view.value + 4 * r.value.count <= |buf|
    ensures r.Ok? && r.value.view.None? ==>
              var buf := wavData.value;
              r.value.count == 0 &&
              ScanChunks(buf, LocateRiff(buf).value.Body(), LocateRiff(buf).value.End(), tag).Absent?
    ensures wavData.Some? && |wavData.value| < MIN_RIFF_SIZE ==> r == Err(EFail)
    ensures wavData.Some? && MIN_RIFF_SIZE <= |wavData.value| && LocateRiff(wavData.value).Err? ==>
              r == Err(LocateRiff(wavData.value).error)
    ensures (wavData.Some? && MIN_RIFF_SIZE <= |wavData.value| && LocateRiff(wavData.value).Ok? &&
             !IsAudioForm(LocateRiff(wavData.value).value.form)) ==> r == Err(EFail)
    // the outcome of the walk over a WAVE or XWMA container
    ensures wavData.Some? && MIN_RIFF_SIZE <= |wavData.value| && LocateRiff(wavData.value).Ok? &&
            IsAudioForm(LocateRiff(wavData.value).value.form) ==>
              var buf := wavData.value;
              var riff := LocateRiff(buf).value;
              var s := ScanChunks(buf, riff.Body(), riff.End(), tag);
              if riff.Body() + RIFF_CHUNK_SIZE > |buf| then r == Err(HandleEof)
              else if s.Overrun? then r == Err(ReadPastEnd)
              else if s.Absent? then r == Ok(NO_TABLE)
              // a table chunk that runs past the buffer
              else if s.offset + RIFF_CHUNK_SIZE + SizeAt(buf, s.offset) > |buf| then r == Err(HandleEof)
              // a table that is not a whole number of uint32 entries
              else if SizeAt(buf, s.offset) % 4 != 0 then r == Err(EFail)
              else r == Ok(Table(Some(s.offset + RIFF_CHUNK_SIZE), SizeAt(buf, s.offset) / 4))
  {
    if wavData.None? then Err(EPointer)
    else
      var buf := wavData.value;
      if |buf| < MIN_RIFF_SIZE then Err(EFail)
      else
        var riff :- LocateRiff(buf);
        if !IsAudioForm(riff.form) then Err(EFail)
        else if riff.Body() + RIFF_CHUNK_SIZE > |buf| then Err(HandleEof)
        else
          var tableChunk :- FindInRiff(buf, riff, tag);
          match tableChunk
          case None => Ok(NO_TABLE)
          case Some(t) =>
            if t.End() > |buf| then Err(HandleEof)
            else if t.size % 4 != 0 then Err(EFail)
            else Ok(Table(Some(t.start), t.size / 4))
  }

  // ---------------------------------------------------------------------------
  // The entry points
  // ---------------------------------------------------------------------------

  /** The HRESULT of an entry point and the WAVData contents it leaves behind. */
  datatype Outcome = Outcome(status: Status, data: WAVDataValue)

  /** The WAVData contents after FindFormatAndData has written its outputs. */
  function WithFormat(fd: FormatAndData): WAVDataValue
  {
    EMPTY_WAV_DATA.(format := fd.format, startAudio := Some(fd.data.start), audioBytes := fd.data.size)
  }

  /**
   * LoadWAVAudioInMemory on a non-null buffer: the format and audio span, or a
   * failure. A codec that needs a table fails with E_FAIL, with the format and
   * span already written.
   */
  function InMemory(buf: seq<uint8>): (o: Outcome)
  {
    if |buf| < MIN_WAV_SIZE then Outcome(Failure(EFail), EMPTY_WAV_DATA)
    else match FindFormatAndData(Some(buf))
      case Err(e) => Outcome(Failure(e), EMPTY_WAV_DATA)
      case Ok(fd) =>
        Outcome(if fd.tables.dpds || fd.tables.seek then Failure(EFail) else Success, WithFormat(fd))
  }

  /**
   * LoadWAVAudioInMemoryEx on a non-null buffer: the format and audio span,
   * the loop region, and the 'dpds' or 'seek' table the codec needs.
   */
  function InMemoryEx(buf: seq<uint8>): (o: Outcome)
  {
    if |buf| < MIN_WAV_SIZE then Outcome(Failure(EFail), EMPTY_WAV_DATA)
    else match FindFormatAndData(Some(buf))
      case Err(e) => Outcome(Failure(e), EMPTY_WAV_DATA)
      case Ok(fd) =>
        match LoopInfo(Some(buf))
        case Err(e) => Outcome(Failure(e), WithFormat(fd))
        case Ok(l) =>
          var withLoop := WithFormat(fd).(loopStart := l.start, loopLength := l.length);
          if fd.tables.dpds || fd.tables.seek then
            match FindTable(Some(buf), if fd.tables.dpds then TAG_XWMA_DPDS else TAG_XMA_SEEK)
            case Err(e) => Outcome(Failure(e), withLoop)
            case Ok(t) => Outcome(Success, withLoop.(seek := t.view, seekCount := t.count))
          else Outcome(Success, withLoop)
  }

  /**
   * LoadWAVAudioInMemory: the three out-parameters are the format, startAudio
   * and audioBytes fields of `out`; nothing else of it changes.
   */
  method LoadWAVAudioInMemory(wavData: Option<seq<uint8>>, out: WAVData) returns (hr: Status)
    modifies out`format, out`startAudio, out`audioBytes
    ensures wavData.None? ==> hr == Failure(EInvalidArg) && unchanged(out)
    ensures wavData.Some? ==> hr == InMemory(wavData.value).status
    ensures wavData.Some? ==> out.format == InMemory(wavData.value).data.format &&
                              out.startAudio == InMemory(wavData.value).data.startAudio &&
                              out.audioBytes == InMemory(wavData.value).data.audioBytes
  {
    if wavData.None? {
      return Failure(EInvalidArg);
    }
    out.format, out.startAudio, out.audioBytes := DEFAULT_FORMAT, None, 0;
    if |wavData.value| < MIN_WAV_SIZE {
      return Failure(EFail);
    }
    var fd := FindFormatAndData(wavData);
    if fd.Err? {
      return Failure(fd.error);
    }
    out.format, out.startAudio, out.audioBytes := fd.value.format, Some(fd.value.data.start), fd.value.data.size;
    if fd.value.tables.dpds || fd.value.tables.seek {
      return Failure(EFail);
    }
    return Success;
  }

  /** LoadWAVAudioInMemoryEx: zero the record, then fill it part by part, stopping at the first failure. */
  method LoadWAVAudioInMemoryEx(wavData: Option<seq<uint8>>, result: WAVData) returns (hr: Status)
    modifies result
    ensures wavData.None? ==> hr == Failure(EInvalidArg) && unchanged(result)
    ensures wavData.Some? ==> hr == InMemoryEx(wavData.value).status && result.Value() == InMemoryEx(wavData.value).data
  {
    if wavData.None? {
      return Failure(EInvalidArg);
    }
    result.Reset();
    if |wavData.value| < MIN_WAV_SIZE {
      return Failure(EFail);
    }
    var fd := FindFormatAndData(wavData);
    if fd.Err? {
      return Failure(fd.error);
    }
    result.format, result.startAudio, result.audioBytes := fd.value.format, Some(fd.value.data.start), fd.value.data.size;
    var loop := FindLoopInfo(wavData);
    if loop.Err? {
      return Failure(loop.error);
    }
    result.loopStart, result.loopLength := loop.value.start, loop.value.length;
    if fd.value.tables.dpds {
      var table := FindTable(wavData, TAG_XWMA_DPDS);
      if table.Err? {
        return Failure(table.error);
      }
      result.seek, result.seekCount := table.value.view, table.value.count;
    } else if fd.value.tables.seek {
      var table := FindTable(wavData, TAG_XMA_SEEK);
      if table.Err? {
        return Failure(table.error);
      }
      result.seek, result.seekCount := table.value.view, table.value.count;
    }
    return Success;
  }
}
