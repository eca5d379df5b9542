/**
 * The RIFF/WAV vocabulary of the decoder: four-character chunk tags, the packed
 * record layouts it reads the buffer through, the loop-type and format-tag
 * constants, and the records it fills (WAVFormat, WAVData).
 */
module WavFormat {
  import opened Common

  /**
   * MAKE_TAG: ch0 goes to bits 0-7, ch1 to bits 8-15, ch2 to bits 16-23 and ch3
   * to bits 24-31. A left shift by 8k is a multiplication by 2^(8k), and the four
   * shifted bytes occupy disjoint bits, so their bitwise or is their sum.
   */
  function MakeTag(ch0: uint8, ch1: uint8, ch2: uint8, ch3: uint8): (t: uint32)
    ensures t % 0x100 == ch0
    ensures t / 0x100 % 0x100 == ch1
    ensures t / 0x100 / 0x100 % 0x100 == ch2
    ensures t / 0x100 / 0x100 / 0x100 == ch3
  {
    var upper2 := ch2 + ch3 * 0x100;
    var upper3 := ch1 + upper2 * 0x100;
    ByteSplit(ch2, ch3);
    ByteSplit(ch1, upper2);
    ByteSplit(ch0, upper3);
    ch0 + upper3 * 0x100
  }

  /** A byte below a multiple of 0x100 is recovered by % 0x100, the multiple by / 0x100. */
  lemma {:induction false} ByteSplit(low: uint8, high: nat)
    ensures (low + high * 0x100) % 0x100 == low && (low + high * 0x100) / 0x100 == high
  {
  }

  /** A tag equals the little-endian uint32 read of its four characters, so a header's tag field compares directly. */
  lemma {:induction false} MakeTagIsLittleEndianRead(buf: seq<uint8>, p: nat)
    requires p + 4 <= |buf|
    ensures U32(buf, p) == MakeTag(buf[p], buf[p + 1], buf[p + 2], buf[p + 3])
  {
  }

  /** Two tags are equal exactly when their four characters are. */
  lemma {:induction false} MakeTagInjective(a0: uint8, a1: uint8, a2: uint8, a3: uint8,
                                            b0: uint8, b1: uint8, b2: uint8, b3: uint8)
    ensures MakeTag(a0, a1, a2, a3) == MakeTag(b0, b1, b2, b3) <==> a0 == b0 && a1 == b1 && a2 == b2 && a3 == b3
  {
    var a := MakeTag(a0, a1, a2, a3);
    var b := MakeTag(b0, b1, b2, b3);
    if a == b {
      assert a0 == a % 0x100 == b % 0x100 == b0;
      assert a1 == a / 0x100 % 0x100 == b / 0x100 % 0x100 == b1;
      assert a2 == a / 0x100 / 0x100 % 0x100 == b / 0x100 / 0x100 % 0x100 == b2;
      assert a3 == a / 0x100 / 0x100 / 0x100 == b / 0x100 / 0x100 / 0x100 == b3;
    }
  }

  // WAVFileTag
  const TAG_UNKNOWN: uint32 := 0
  const TAG_RIFF: uint32 := MakeTag('R' as int, 'I' as int, 'F' as int, 'F' as int)
  const TAG_FORMAT: uint32 := MakeTag('f' as int, 'm' as int, 't' as int, ' ' as int)
  const TAG_DATA: uint32 := MakeTag('d' as int, 'a' as int, 't' as int, 'a' as int)
  const TAG_WAVE_FILE: uint32 := MakeTag('W' as int, 'A' as int, 'V' as int, 'E' as int)
  const TAG_XWMA_FILE: uint32 := MakeTag('X' as int, 'W' as int, 'M' as int, 'A' as int)
  const TAG_DLS_SAMPLE: uint32 := MakeTag('w' as int, 's' as int, 'm' as int, 'p' as int)
  const TAG_MIDI_SAMPLE: uint32 := MakeTag('s' as int, 'm' as int, 'p' as int, 'l' as int)
  const TAG_XWMA_DPDS: uint32 := MakeTag('d' as int, 'p' as int, 'd' as int, 's' as int)
  const TAG_XMA_SEEK: uint32 := MakeTag('s' as int, 'e' as int, 'e' as int, 'k' as int)

  /** The named tags in declaration order, WAV_FILE_TAG_UNKNOWN excluded. */
  const NAMED_TAGS: seq<uint32> := [TAG_RIFF, TAG_FORMAT, TAG_DATA, TAG_WAVE_FILE, TAG_XWMA_FILE,
                                    TAG_DLS_SAMPLE, TAG_MIDI_SAMPLE, TAG_XWMA_DPDS, TAG_XMA_SEEK]

  /** The nine named tags are pairwise distinct and none is WAV_FILE_TAG_UNKNOWN. */
  lemma {:induction false} TagsDistinct()
    ensures |NAMED_TAGS| == 9
    ensures forall i, j :: 0 <= i < j < |NAMED_TAGS| ==> NAMED_TAGS[i] != NAMED_TAGS[j]
    ensures forall i :: 0 <= i < |NAMED_TAGS| ==> NAMED_TAGS[i] != TAG_UNKNOWN
  {
  }

  /** A packed (pack(1)) record layout: the byte widths of its fields in declaration order. */
  function SizeOf(fields: seq<nat>): nat
  {
    if fields == [] then 0 else SizeOf(fields[..|fields| - 1]) + fields[|fields| - 1]
  }

  /** Adding one more field to a prefix of a layout adds its width. */
  lemma {:induction false} SizeOfStep(fields: seq<nat>, i: nat)
    requires i < |fields|
    ensures SizeOf(fields[..i + 1]) == SizeOf(fields[..i]) + fields[i]
  {
    assert fields[..i + 1][..i] == fields[..i];
  }

  /** The size of every prefix of a layout, from the widths of its fields. */
  lemma {:induction false} PrefixSizes(fields: seq<nat>)
    ensures SizeOf(fields[..0]) == 0
    ensures forall i :: 0 <= i < |fields| ==> SizeOf(fields[..i + 1]) == SizeOf(fields[..i]) + fields[i]
    ensures fields[..|fields|] == fields
  {
    assert fields[..0] == [];
    forall i | 0 <= i < |fields|
      ensures SizeOf(fields[..i + 1]) == SizeOf(fields[..i]) + fields[i]
    {
      SizeOfStep(fields, i);
    }
  }

  /** The byte offset of field i: the widths of the fields declared before it. */
  function OffsetOf(fields: seq<nat>, i: nat): nat
    requires i <= |fields|
  {
    SizeOf(fields[..i])
  }

  const RIFF_CHUNK_FIELDS: seq<nat> := [4, 4]                        // mTag, mSize
  const RIFF_CHUNK_HEADER_FIELDS: seq<nat> := [4, 4, 4]              // mTag, mSize, mRiff
  const DLS_LOOP_FIELDS: seq<nat> := [4, 4, 4, 4]                    // mSize, mLoopType, mLoopStart, mLoopLength
  const RIFF_DLS_SAMPLE_FIELDS: seq<nat> := [4, 2, 2, 4, 4, 4]       // mSize, mUnityNote, mFineTune, mGain, mOptions, mLoopCount
  const MIDI_LOOP_FIELDS: seq<nat> := [4, 4, 4, 4, 4, 4]             // mCuePointId, mType, mStart, mEnd, mFraction, mPlayCount
  const RIFF_MIDI_SAMPLE_FIELDS: seq<nat> := [4, 4, 4, 4, 4, 4, 4, 4, 4]
    // mManufacturerId, mProductId, mSamplePeriod, mUnityNode, mPitchFraction, mSMPTEFormat, mSMPTEOffset, mLoopCount, mSamplerData

  // Sizes and offsets of the records above, as the loader uses them.
  const RIFF_CHUNK_SIZE: nat := 8
  const RIFF_CHUNK_HEADER_SIZE: nat := 12
  const DLS_LOOP_SIZE: nat := 16
  const RIFF_DLS_SAMPLE_SIZE: nat := 20
  const MIDI_LOOP_SIZE: nat := 24
  const RIFF_MIDI_SAMPLE_SIZE: nat := 36
  const CHUNK_SIZE_OFFSET: nat := 4         // RIFFChunk::mSize
  const RIFF_FORM_OFFSET: nat := 8          // RIFFChunkHeader::mRiff
  const DLS_LOOP_TYPE_OFFSET: nat := 4      // DLSLoop::mLoopType
  const DLS_LOOP_START_OFFSET: nat := 8     // DLSLoop::mLoopStart
  const DLS_LOOP_LENGTH_OFFSET: nat := 12   // DLSLoop::mLoopLength
  const DLS_SAMPLE_COUNT_OFFSET: nat := 16  // RIFFDLSSample::mLoopCount
  const MIDI_LOOP_TYPE_OFFSET: nat := 4     // MIDILoop::mType
  const MIDI_LOOP_START_OFFSET: nat := 8    // MIDILoop::mStart
  const MIDI_LOOP_END_OFFSET: nat := 12     // MIDILoop::mEnd
  const MIDI_SAMPLE_COUNT_OFFSET: nat := 28 // RIFFMIDISample::mLoopCount

  /** The RIFF headers: the sizes the header's static_asserts check and the offsets the loader reads at. */
  lemma {:induction false} RiffLayoutFacts()
    ensures SizeOf(RIFF_CHUNK_FIELDS) == RIFF_CHUNK_SIZE
    ensures OffsetOf(RIFF_CHUNK_FIELDS, 1) == CHUNK_SIZE_OFFSET
    ensures SizeOf(RIFF_CHUNK_HEADER_FIELDS) == RIFF_CHUNK_HEADER_SIZE
    ensures OffsetOf(RIFF_CHUNK_HEADER_FIELDS, 2) == RIFF_FORM_OFFSET
  {
    PrefixSizes(RIFF_CHUNK_FIELDS);
    assert SizeOf(RIFF_CHUNK_FIELDS[..1]) == 4 && SizeOf(RIFF_CHUNK_FIELDS[..2]) == 8;
    PrefixSizes(RIFF_CHUNK_HEADER_FIELDS);
    assert SizeOf(RIFF_CHUNK_HEADER_FIELDS[..1]) == 4 && SizeOf(RIFF_CHUNK_HEADER_FIELDS[..2]) == 8 && SizeOf(RIFF_CHUNK_HEADER_FIELDS[..3]) == 12;
  }

  /** The DLS 'wsmp' records: sizes checked by static_asserts and the offsets the loader reads at. */
  lemma {:induction false} DlsLayoutFacts()
    ensures SizeOf(DLS_LOOP_FIELDS) == DLS_LOOP_SIZE
    ensures OffsetOf(DLS_LOOP_FIELDS, 1) == DLS_LOOP_TYPE_OFFSET
    ensures OffsetOf(DLS_LOOP_FIELDS, 2) == DLS_LOOP_START_OFFSET
    ensures OffsetOf(DLS_LOOP_FIELDS, 3) == DLS_LOOP_LENGTH_OFFSET
    ensures SizeOf(RIFF_DLS_SAMPLE_FIELDS) == RIFF_DLS_SAMPLE_SIZE
    ensures OffsetOf(RIFF_DLS_SAMPLE_FIELDS, 5) == DLS_SAMPLE_COUNT_OFFSET
  {
    PrefixSizes(DLS_LOOP_FIELDS);
    assert SizeOf(DLS_LOOP_FIELDS[..1]) == 4 && SizeOf(DLS_LOOP_FIELDS[..2]) == 8 && SizeOf(DLS_LOOP_FIELDS[..3]) == 12 && SizeOf(DLS_LOOP_FIELDS[..4]) == 16;
    PrefixSizes(RIFF_DLS_SAMPLE_FIELDS);
    assert SizeOf(RIFF_DLS_SAMPLE_FIELDS[..1]) == 4 && SizeOf(RIFF_DLS_SAMPLE_FIELDS[..2]) == 6 && SizeOf(RIFF_DLS_SAMPLE_FIELDS[..3]) == 8 && SizeOf(RIFF_DLS_SAMPLE_FIELDS[..4]) == 12 && SizeOf(RIFF_DLS_SAMPLE_FIELDS[..5]) == 16 && SizeOf(RIFF_DLS_SAMPLE_FIELDS[..6]) == 20;
  }

  /** The MIDI 'smpl' records: sizes checked by static_asserts and the offsets the loader reads at. */
  lemma {:induction false} MidiLayoutFacts()
    ensures SizeOf(MIDI_LOOP_FIELDS) == MIDI_LOOP_SIZE
    ensures OffsetOf(MIDI_LOOP_FIELDS, 1) == MIDI_LOOP_TYPE_OFFSET
    ensures OffsetOf(MIDI_LOOP_FIELDS, 2) == MIDI_LOOP_START_OFFSET
    ensures OffsetOf(MIDI_LOOP_FIELDS, 3) == MIDI_LOOP_END_OFFSET
    ensures SizeOf(RIFF_MIDI_SAMPLE_FIELDS) == RIFF_MIDI_SAMPLE_SIZE
    ensures OffsetOf(RIFF_MIDI_SAMPLE_FIELDS, 7) == MIDI_SAMPLE_COUNT_OFFSET
  {
    PrefixSizes(MIDI_LOOP_FIELDS);
    assert SizeOf(MIDI_LOOP_FIELDS[..1]) == 4 && SizeOf(MIDI_LOOP_FIELDS[..2]) == 8 && SizeOf(MIDI_LOOP_FIELDS[..3]) == 12 && SizeOf(MIDI_LOOP_FIELDS[..4]) == 16 && SizeOf(MIDI_LOOP_FIELDS[..5]) == 20 && SizeOf(MIDI_LOOP_FIELDS[..6]) == 24;
    PrefixSizes(RIFF_MIDI_SAMPLE_FIELDS);
    assert SizeOf(RIFF_MIDI_SAMPLE_FIELDS[..1]) == 4 && SizeOf(RIFF_MIDI_SAMPLE_FIELDS[..2]) == 8 && SizeOf(RIFF_MIDI_SAMPLE_FIELDS[..3]) == 12 && SizeOf(RIFF_MIDI_SAMPLE_FIELDS[..4]) == 16 && SizeOf(RIFF_MIDI_SAMPLE_FIELDS[..5]) == 20 && SizeOf(RIFF_MIDI_SAMPLE_FIELDS[..6]) == 24 && SizeOf(RIFF_MIDI_SAMPLE_FIELDS[..7]) == 28 && SizeOf(RIFF_MIDI_SAMPLE_FIELDS[..8]) == 32 && SizeOf(RIFF_MIDI_SAMPLE_FIELDS[..9]) == 36;
  }

  // DLSLoop and MIDILoop loop types.
  const DLS_LOOP_FORWARD: uint32 := 0
  const DLS_LOOP_RELEASE: uint32 := 1
  const MIDI_LOOP_FORWARD: uint32 := 0
  const MIDI_LOOP_ALTERNATING: uint32 := 1
  const MIDI_LOOP_BACKWARD: uint32 := 2

  // Format tags of mmreg.h.
  const WAVE_FORMAT_PCM: uint16 := 1
  const WAVE_FORMAT_ADPCM: uint16 := 2
  const WAVE_FORMAT_IEEE_FLOAT: uint16 := 3
  const WAVE_FORMAT_WMAUDIO2: uint16 := 0x161
  const WAVE_FORMAT_WMAUDIO3: uint16 := 0x162
  const WAVE_FORMAT_XMA2: uint16 := 0x166
  const WAVE_FORMAT_EXTENSIBLE: uint16 := 0xFFFE

  // The mmreg.h format records: WAVEFORMAT, PCMWAVEFORMAT, WAVEFORMATEX, WAVEFORMATEXTENSIBLE.
  const WAVEFORMATEX_FIELDS: seq<nat> := [2, 2, 4, 4, 2, 2, 2]
    // wFormatTag, nChannels, nSamplesPerSec, nAvgBytesPerSec, nBlockAlign, wBitsPerSample, cbSize
  const WAVEFORMATEXTENSIBLE_FIELDS: seq<nat> := WAVEFORMATEX_FIELDS + [2, 4, 16]
    // ... , Samples, dwChannelMask, SubFormat
  const WAVEFORMAT_SIZE: nat := 14
  const PCMWAVEFORMAT_SIZE: nat := 16
  const WAVEFORMATEX_SIZE: nat := 18
  const WAVEFORMATEXTENSIBLE_SIZE: nat := 40
  const WFX_CHANNELS_OFFSET: nat := 2
  const WFX_SAMPLE_RATE_OFFSET: nat := 4
  const WFX_AVG_BYTES_OFFSET: nat := 8
  const WFX_BLOCK_ALIGN_OFFSET: nat := 12
  const WFX_BITS_OFFSET: nat := 14
  const WFX_CB_SIZE_OFFSET: nat := 16
  const WFEX_SUBFORMAT_OFFSET: nat := 24
  const XMA2WAVEFORMATEX_SIZE: nat := 52
  const MSADPCM_FORMAT_EXTRA_BYTES: nat := 32

  /** WAVEFORMAT is the first five fields, PCMWAVEFORMAT six, WAVEFORMATEX all seven; SubFormat is the last extensible field. */
  lemma {:induction false} FormatLayoutFacts()
    ensures SizeOf(WAVEFORMATEX_FIELDS[..5]) == WAVEFORMAT_SIZE
    ensures SizeOf(WAVEFORMATEX_FIELDS[..6]) == PCMWAVEFORMAT_SIZE
    ensures SizeOf(WAVEFORMATEX_FIELDS) == WAVEFORMATEX_SIZE
    ensures SizeOf(WAVEFORMATEXTENSIBLE_FIELDS) == WAVEFORMATEXTENSIBLE_SIZE
    ensures OffsetOf(WAVEFORMATEX_FIELDS, 1) == WFX_CHANNELS_OFFSET
    ensures OffsetOf(WAVEFORMATEX_FIELDS, 2) == WFX_SAMPLE_RATE_OFFSET
    ensures OffsetOf(WAVEFORMATEX_FIELDS, 3) == WFX_AVG_BYTES_OFFSET
    ensures OffsetOf(WAVEFORMATEX_FIELDS, 4) == WFX_BLOCK_ALIGN_OFFSET
    ensures OffsetOf(WAVEFORMATEX_FIELDS, 5) == WFX_BITS_OFFSET
    ensures OffsetOf(WAVEFORMATEX_FIELDS, 6) == WFX_CB_SIZE_OFFSET
    ensures OffsetOf(WAVEFORMATEXTENSIBLE_FIELDS, 9) == WFEX_SUBFORMAT_OFFSET
  {
    PrefixSizes(WAVEFORMATEX_FIELDS);
    assert SizeOf(WAVEFORMATEX_FIELDS[..1]) == 2 && SizeOf(WAVEFORMATEX_FIELDS[..2]) == 4 && SizeOf(WAVEFORMATEX_FIELDS[..3]) == 8 && SizeOf(WAVEFORMATEX_FIELDS[..4]) == 12 && SizeOf(WAVEFORMATEX_FIELDS[..5]) == 14 && SizeOf(WAVEFORMATEX_FIELDS[..6]) == 16 && SizeOf(WAVEFORMATEX_FIELDS[..7]) == 18;
    PrefixSizes(WAVEFORMATEXTENSIBLE_FIELDS);
    assert WAVEFORMATEXTENSIBLE_FIELDS[..7] == WAVEFORMATEX_FIELDS;
    assert SizeOf(WAVEFORMATEXTENSIBLE_FIELDS[..8]) == 20 && SizeOf(WAVEFORMATEXTENSIBLE_FIELDS[..9]) == 24;
    assert SizeOf(WAVEFORMATEXTENSIBLE_FIELDS[..10]) == 40;
  }

  /** A GUID: Data1, Data2, Data3 and the eight bytes of Data4. */
  datatype Guid = Guid(data1: uint32, data2: uint16, data3: uint16, data4: seq<uint8>)

  /** The in-memory bytes of a GUID on a little-endian machine. */
  function GuidBytes(g: Guid): seq<uint8>
  {
    LE32(g.data1) + LE16(g.data2) + LE16(g.data3) + g.data4
  }

  /** s_wfexBase: the base GUID of the extensible sub-formats, with Data1 zero. */
  const WFEX_BASE: Guid := Guid(0, 0, 0x0010, [0x80, 0x00, 0x00, 0xAA, 0x00, 0x38, 0x9B, 0x71])

  /** The twelve bytes that follow Data1 in s_wfexBase. */
  const WFEX_BASE_SUFFIX: seq<uint8> := [0x00, 0x00, 0x10, 0x00, 0x80, 0x00, 0x00, 0xAA, 0x00, 0x38, 0x9B, 0x71]

  /** The suffix the loader compares is the base GUID's memory image past its Data1. */
  lemma {:induction false} BaseSuffixIsGuidTail()
    ensures |GuidBytes(WFEX_BASE)| == 16
    ensures GuidBytes(WFEX_BASE)[4..] == WFEX_BASE_SUFFIX
  {
  }

  /** WAVFormat: the decoded format descriptor. Default member initialisers make every field zero. */
  datatype WAVFormat = WAVFormat(
    formatTag: uint16,
    channels: uint16,
    sampleRate: uint64,
    avgByteRate: uint64,
    blockAlignment: uint16,
    bitsPerSample: uint16,
    cbSize: uint16)

  const DEFAULT_FORMAT: WAVFormat := WAVFormat(0, 0, 0, 0, 0, 0, 0)

  /**
   * The contents of a WAVData record. The two views into the caller's buffer
   * (pSeek, pStartAudio) are offsets into it; None is nullptr.
   */
  datatype WAVDataValue = WAVDataValue(
    format: WAVFormat,
    seek: Option<nat>,
    startAudio: Option<nat>,
    audioBytes: uint32,
    loopStart: uint32,
    loopLength: uint32,
    seekCount: uint32)

  /** The value of a default-initialised (or zero-filled) WAVData. */
  const EMPTY_WAV_DATA: WAVDataValue := WAVDataValue(DEFAULT_FORMAT, None, None, 0, 0, 0, 0)

  /** WAVData: the record LoadWAVAudioInMemoryEx fills in place. */
  class WAVData {
    var format: WAVFormat
    var seek: Option<nat>
    var startAudio: Option<nat>
    var audioBytes: uint32
    var loopStart: uint32
    var loopLength: uint32
    var seekCount: uint32

    function Value(): WAVDataValue
      reads this
    {
      WAVDataValue(format, seek, startAudio, audioBytes, loopStart, loopLength, seekCount)
    }

    /** The default member initialisers: all-zero fields and null views. */
    constructor ()
      ensures Value() == EMPTY_WAV_DATA
    {
      format, seek, startAudio := DEFAULT_FORMAT, None, None;
      audioBytes, loopStart, loopLength, seekCount := 0, 0, 0, 0;
    }

    /** memset(&result, 0, sizeof(result)): back to the default state. */
    method Reset()
      modifies this
      ensures Value() == EMPTY_WAV_DATA
    {
      format, seek, startAudio := DEFAULT_FORMAT, None, None;
      audioBytes, loopStart, loopLength, seekCount := 0, 0, 0, 0;
    }
  }
}
