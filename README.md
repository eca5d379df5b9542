# EnSound WAV decoder — a Dafny model

This project models the in-memory RIFF/WAV decoder of EnSound's XAudio2 back end
(`Backend/XAudio2/Source/Loaders/WAVLoader.cpp`). It also models the tag encoding
and the packed record layouts that the decoder reads the buffer through
(`Include/Core/Formats/WAV/Format.h`).

The decoder is given a byte buffer. It proceeds as follows:

- It walks RIFF chunk headers (`FindChunk`).
- It finds the `RIFF` container of form `WAVE` or `XWMA`.
- It checks the first `fmt ` chunk, sorts the codec into one of three classes and
  locates the first `data` chunk (`FindFormatAndData`). The three classes are: needs
  a `dpds` packet table, needs a `seek` table, or needs neither.
- It extracts the first usable loop from a DLS `wsmp` chunk or a MIDI `smpl` chunk
  (`FindLoopInfo`).
- It extracts an optional table of 32-bit entries (`FindTable`).
- The two entry points compose these steps (`LoadWAVAudioInMemory`,
  `LoadWAVAudioInMemoryEx`).

How the model represents the program:

- The buffer is a `seq<uint8>`. Every pointer the C++ code hands out becomes an
  offset into that sequence, and a null pointer becomes `None`.
- HRESULTs become the `WavLoader.Error` datatype.
- Some reads in the C++ code would be undefined behaviour because they go past the
  end of the caller's buffer. The model reports the chunk-header and form-type
  reads past the end as the extra error `ReadPastEnd` instead of guessing what the
  bytes would be. The one exception is the `cbSize` copy from a 16-byte `fmt `
  chunk: the model uses the corrected copy, which reads nothing there (see
  Findings).

Files:

- `common.dfy`: the integer widths, 32-bit wrap-around, and little-endian reads
  and writes.
- `format.dfy`:
  - `MAKE_TAG` and the tags;
  - the `pack(1)` layouts and their sizes;
  - the `mmreg.h` constants the decoder uses;
  - `WAVFormat` and `WAVData` (a class, since `LoadWAVAudioInMemoryEx` fills it in
    place).
- `chunk_scan.dfy`: `FindChunk`, with its `while` loop, proved equal to the
  recursive walk `ScanChunks`.
- `wav_loader.dfy`:
  - the parsers as functions;
  - the parts of the code that loop or fill records step by step as methods proved
    against those functions (`FindChunk`, the two loop-record `for` loops,
    `FindLoopInfo`, the two entry points).
- `loader_properties.dfy`: what the entry points promise.
- `wav_writer.dfy` and `record_images.dfy`: a writer that lays chunks out as a RIFF
  image, as an independent partner of the parser. Parsing a written image gives
  back the table and loop that were written, and, for a PCM or IEEE float format,
  the format and audio that were written.
- `findings.dfy`: two places where the code as written departs from what it
  evidently intends. Each is shown on a concrete file.

Behaviour of the code worth knowing:

- `LoadWAVAudioInMemory` rejects a codec that needs a table with `E_FAIL`, not a
  distinct "unsupported format" error. It also leaves the format and audio span
  already written in its outputs.
- A zero-length buffer gives `E_FAIL` (size check), not `E_INVALIDARG`. Only a null
  buffer gives `E_INVALIDARG`.
- `FindLoopInfo` and `FindTable` reset their outputs only after the null checks and
  the 12-byte size check.
- The declarations in `WAVLoader.h` disagree with the definitions in
  `WAVLoader.cpp`. The definitions are modelled.

Reproduced quirks:

- Sub-chunk walks start 12 bytes into the RIFF chunk but cover `mSize` bytes from
  there. The region therefore extends 4 bytes past the container and is never
  clamped to the buffer (`Riff.End`). A header that starts inside the region but
  past the buffer is `ReadPastEnd`.
- `FindChunk` moves on by `mSize + 8` exactly, without RIFF word-alignment padding.
- `mEnd - mStart + 1` of a MIDI loop is computed modulo 2^32 (`Wrap32`).
- A truncated file can make the loader read past the caller's buffer. For example, a
  canonical PCM file cut just after the `data` tag has that tag matched and its
  `mSize` read from the missing bytes. Such inputs give `ReadPastEnd`.

## Model

| member | source | states |
|---|---|---|
| ChunkScan.FindChunk | Backend/XAudio2/Source/Loaders/WAVLoader.cpp:20-39 | the `while` loop returns exactly what the walk `ScanChunks` over [data, data + sizeBytes) returns |
| ChunkScan.ScanChunks | Backend/XAudio2/Source/Loaders/WAVLoader.cpp:28-35 | a header it returns lies in the region, is readable, follows `ptr` and carries the tag |
| ChunkScan.Chain | Backend/XAudio2/Source/Loaders/WAVLoader.cpp:28-35 | the headers the walk reads: the first at `ptr`, each next one 8 + size past the last, all with more than 8 bytes left in the region; the offset after the last one (or `ptr` itself for an empty chain) is outside the region or the buffer, so the walk reads no further header |
| ChunkScan.NextHeader | Backend/XAudio2/Source/Loaders/WAVLoader.cpp:34-35 | each step advances by at least 8 bytes, so the walk terminates |
| ChunkScan.WalkEnd | Backend/XAudio2/Source/Loaders/WAVLoader.cpp:28 | the walk stops exactly at the offset just past the last header of `Chain` (at `ptr` when it reads none), which is the first offset with 8 or fewer bytes left in the region or fewer than 8 bytes left in the buffer |
| ChunkScan.ScanChunksIsFirstMatch | Backend/XAudio2/Source/Loaders/WAVLoader.cpp:20-39 | the walk finds a header iff some header of the chain has the tag, and then the FIRST such; it overruns exactly when none matches and the chain stops inside the region |
| ChunkScan.NoOverrunInsideBuffer | Backend/XAudio2/Source/Loaders/WAVLoader.cpp:28-30 | a walk over a region that the buffer holds never reads past the buffer |
| WavLoader.LocateRiff | Backend/XAudio2/Source/Loaders/WAVLoader.cpp:53-60 | the container is the first `RIFF` header of the buffer; E_FAIL exactly when there is none or its size is below 4; ReadPastEnd when its form type lies past the buffer; otherwise its size and form type are read from it |
| WavLoader.FindInRiff | Backend/XAudio2/Source/Loaders/WAVLoader.cpp:67 | the sub-chunk lookup finds the first header with the tag in the container region and gives its payload, starting 8 bytes past that header with the header's declared size; none when the walk leaves the region; ReadPastEnd exactly when the walk reads past the buffer |
| WavLoader.ClassifyFormat | Backend/XAudio2/Source/Loaders/WAVLoader.cpp:77-151 | the outcome of every case: PCM/float are accepted with no table; any other tag gives E_FAIL below 18 bytes or below 18 + cbSize; WMA v2/v3 then need `dpds`; XMA2 needs 52 bytes and cbSize >= 34 (else E_FAIL) and needs `seek`; ADPCM needs 50 bytes and cbSize >= 32 (else E_FAIL); extensible needs 40 bytes and cbSize >= 22 (else E_FAIL), the base GUID suffix (else NotSupported), and a PCM/float Data1 (no table) or a WMA Data1 (`dpds`), any other Data1 being NotSupported; an unknown tag is NotSupported; never both flags |
| WavLoader.ReadFormatAsWritten | Backend/XAudio2/Source/Loaders/WAVLoader.cpp:166-172 | the field copy as written: cbSize is always read from offset 16 of the record, whatever the size of the chunk |
| WavLoader.ReadFormat | Backend/XAudio2/Source/Loaders/WAVLoader.cpp:166-172 | the seven fields are copied verbatim from their WAVEFORMATEX offsets; cbSize is 0 for a 16-byte PCMWAVEFORMAT |
| WavLoader.FormatAndDataIn | Backend/XAudio2/Source/Loaders/WAVLoader.cpp:62-175 | the outcome of every step past the RIFF lookup: no room for a sub-chunk header HandleEof; no `fmt ` chunk or one under 16 bytes E_FAIL; a `fmt ` payload past the buffer HandleEof; the validation's error; no `data` chunk or an empty one InvalidData; a `data` payload past the buffer HandleEof; a walk past the buffer ReadPastEnd; otherwise success with the copy of the first `fmt ` record (cbSize 0 for a 16-byte record: the corrected copy, see Findings), the first `data` payload and the validation's flags |
| WavLoader.FindFormatAndData | Backend/XAudio2/Source/Loaders/WAVLoader.cpp:41-177 | null gives E_POINTER; fewer than 34 bytes E_FAIL; the RIFF lookup's error; a form other than WAVE/XWMA E_FAIL; past that, exactly the outcome of `FormatAndDataIn`; on success the format is the copy of the first `fmt ` payload (>= 16 bytes, inside the buffer) that the validation accepted, the audio is the first `data` payload (non-empty, inside the buffer), and `dpds` and `seek` are not both set |
| WavLoader.FirstDlsLoopIsFirst | Backend/XAudio2/Source/Loaders/WAVLoader.cpp:226-235 | the DLS search picks the first forward or release record, and none exactly when no record is one |
| WavLoader.FirstMidiLoopIsFirst | Backend/XAudio2/Source/Loaders/WAVLoader.cpp:255-264 | the MIDI search picks the first forward record, and none exactly when no record is one |
| WavLoader.ScanDlsLoops | Backend/XAudio2/Source/Loaders/WAVLoader.cpp:217-235 | the `for` loop over the `wsmp` records (which start `mSize` bytes into the payload and must fit in it) returns the first forward or release loop, as (start, length) |
| WavLoader.ScanMidiLoops | Backend/XAudio2/Source/Loaders/WAVLoader.cpp:244-264 | the `for` loop over the `smpl` records returns the first forward loop, as (start, end - start + 1 mod 2^32) |
| WavLoader.SmplLoop | Backend/XAudio2/Source/Loaders/WAVLoader.cpp:239-265 | the `smpl` step: ReadPastEnd exactly when the walk overruns; no loop without a `smpl` chunk; HandleEof exactly when the first `smpl` payload runs past the buffer; otherwise the first forward loop of its records (`FirstMidiLoopIsFirst`), or no loop |
| WavLoader.FindSmplLoop | Backend/XAudio2/Source/Loaders/WAVLoader.cpp:237-267 | the `smpl` step as a method equals `SmplLoop`: a chunk walk and the `for` loop over its records |
| WavLoader.FindLoopInfo | Backend/XAudio2/Source/Loaders/WAVLoader.cpp:179-268 | the method computes `LoopInfo`, whose outcomes `LoopInfoOutcomes` states (with the `smpl` walk corrected, see Findings) |
| LoaderProperties.LoopInfoOutcomes | Backend/XAudio2/Source/Loaders/WAVLoader.cpp:179-267 | the outcome of every step of the loop search: null gives E_POINTER; fewer than 12 bytes E_FAIL; the RIFF lookup's error; XWMA is handled by `XwmaHasNoLoop`; another non-WAVE form E_FAIL; no room for a sub-chunk header HandleEof; a `wsmp` payload past the buffer HandleEof; the first usable `wsmp` loop; else a `smpl` payload past the buffer HandleEof, or its first forward loop; neither chunk (or no usable record) gives (0, 0); a walk past the buffer ReadPastEnd |
| WavLoader.FindTable | Backend/XAudio2/Source/Loaders/WAVLoader.cpp:270-316 | the outcome of every step: null gives E_POINTER; fewer than 12 bytes E_FAIL; the RIFF lookup's error; a form other than WAVE/XWMA E_FAIL; no room for a sub-chunk header HandleEof; no chunk with the tag gives no view and count 0; a table chunk past the buffer HandleEof; a size that is not a multiple of 4 E_FAIL; otherwise a view just past the first tagged header with count = size / 4 |
| WavLoader.LoadWAVAudioInMemory | Backend/XAudio2/Source/Loaders/WAVLoader.cpp:376-395 | null gives E_INVALIDARG with the outputs untouched; otherwise the status and the three outputs are those of `InMemory`: reset, then FindFormatAndData's error unchanged, or E_FAIL for a codec that needs a table (the format copy is the corrected one, see Findings) |
| WavLoader.LoadWAVAudioInMemoryEx | Backend/XAudio2/Source/Loaders/WAVLoader.cpp:419-453 | null gives E_INVALIDARG with the record untouched; otherwise the record is zeroed and filled step by step to exactly `InMemoryEx`: format and audio, loop, then the `dpds` or `seek` table, stopping at the first failure with its error (`ExExtendsInMemory`, `ExTableFromChunk`); it uses the corrected format copy and the corrected `smpl` walk (see Findings) |
| WavFormat.MakeTag | Include/Core/Formats/WAV/Format.h:12-16 | character k of a tag sits in bits 8k to 8k + 7 |
| WavFormat.MakeTagIsLittleEndianRead | Include/Core/Formats/WAV/Format.h:12-16 | a tag equals the little-endian uint32 read of its four characters |
| WavFormat.MakeTagInjective | Include/Core/Formats/WAV/Format.h:12-16 | two tags are equal iff their four characters are |
| WavFormat.TagsDistinct | Include/Core/Formats/WAV/Format.h:23-34 | the nine named tags are pairwise distinct and none is WAV_FILE_TAG_UNKNOWN (0) |
| WavFormat.RiffLayoutFacts | Include/Core/Formats/WAV/Format.h:69-81 | RIFFChunk is 8 bytes with `mSize` at 4; RIFFChunkHeader is 12 bytes with `mRiff` at 8 |
| WavFormat.DlsLayoutFacts | Include/Core/Formats/WAV/Format.h:86-109 | DLSLoop is 16 bytes with type, start and length at 4, 8 and 12; RIFFDLSSample is 20 bytes with `mLoopCount` at 16 |
| WavFormat.MidiLayoutFacts | Include/Core/Formats/WAV/Format.h:114-140 | MIDILoop is 24 bytes with type, start and end at 4, 8 and 12; RIFFMIDISample is 36 bytes with `mLoopCount` at 28 |
| WavFormat.FormatLayoutFacts | Backend/XAudio2/Source/Loaders/WAVLoader.cpp:48 | WAVEFORMAT is 14 bytes, PCMWAVEFORMAT 16, WAVEFORMATEX 18 (cbSize at 16), WAVEFORMATEXTENSIBLE 40 with SubFormat at 24 |
| WavFormat.BaseSuffixIsGuidTail | Backend/XAudio2/Source/Loaders/WAVLoader.cpp:119-124 | the 12 bytes compared are the memory image of `s_wfexBase` past its Data1 |
| WavFormat.WAVData.constructor | Include/Core/Formats/WAV/Format.h:54-62 | a new WAVData has all-zero fields and null views |
| WavFormat.WAVData.Reset | Backend/XAudio2/Source/Loaders/WAVLoader.cpp:424 | the memset leaves the default, all-zero record |
| LoaderProperties.FormatSelectsTables | Backend/XAudio2/Source/Loaders/WAVLoader.cpp:78-149 | an accepted format has a known tag; `seek` iff XMA2; WMA v2/v3 need `dpds`; PCM, float and ADPCM need no table |
| LoaderProperties.InMemoryOutcome | Backend/XAudio2/Source/Loaders/WAVLoader.cpp:386-394 | LoadWAVAudioInMemory succeeds iff the parse does and the codec needs no table; a parse error is returned unchanged with reset outputs; a table codec gives E_FAIL with the format and span written |
| LoaderProperties.LoadedSpansInsideBuffer | Backend/XAudio2/Source/Loaders/WAVLoader.cpp:162-175 | after success the audio span is non-empty and inside the buffer, the format tag is known, and a table view lies inside the buffer (count 0 without a view) |
| LoaderProperties.ExExtendsInMemory | Backend/XAudio2/Source/Loaders/WAVLoader.cpp:419-453 | the Ex entry point writes the same format and span as the plain one; it returns the error of the first failing step unchanged (format and data, then loop, then table), with the outputs written so far (after a table failure: the format, audio span and loop); where the plain one succeeds, the Ex one succeeds iff the loop search does, adding just the loop |
| LoaderProperties.ExTableFromChunk | Backend/XAudio2/Source/Loaders/WAVLoader.cpp:439-450 | the view is the payload of the first `dpds` chunk for a `dpds` codec, or of the first `seek` chunk for XMA2, with count = size / 4; a table codec in a file without that chunk still loads, with no view and count 0; no view when no table is needed |
| LoaderProperties.XwmaHasNoLoop | Backend/XAudio2/Source/Loaders/WAVLoader.cpp:199-201 | an XWMA container gives success with loop (0, 0) |
| LoaderProperties.MidiLoopEndInclusive | Backend/XAudio2/Source/Loaders/WAVLoader.cpp:259 | the MIDI loop end is inclusive: start + length == end + 1 modulo 2^32 |
| LoaderProperties.TruncatedFileFails | Backend/XAudio2/Source/Loaders/WAVLoader.cpp:163-164 | the parse of every prefix of an accepted file that cuts into its audio fails, either with an HRESULT or with `ReadPastEnd` (a chunk header read past the cut) |
| LoaderProperties.TruncatedLoadFails | Backend/XAudio2/Source/Loaders/WAVLoader.cpp:376-453 | both entry points fail on a file cut short of the end of its audio, either with an HRESULT or with `ReadPastEnd` (a chunk header read past the cut) |
| LoaderProperties.ScanPrefix | Backend/XAudio2/Source/Loaders/WAVLoader.cpp:20-39 | a chunk found in a prefix of the buffer is found at the same offset in the whole buffer |
| WavWriter.PlainWaveRoundTrip | Backend/XAudio2/Source/Loaders/WAVLoader.cpp:41-177 | parsing a written WAVE image gives back the PCM/float format written, a span holding exactly the first `data` payload, and no table |
| WavWriter.FindInImage | Backend/XAudio2/Source/Loaders/WAVLoader.cpp:67 | looking a tag up in a written image finds the payload of the first chunk with that tag, or nothing |
| WavWriter.ScanToChunk | Backend/XAudio2/Source/Loaders/WAVLoader.cpp:28-35 | walking written chunks stops at the first one with the tag |
| RecordImages.TableInImage | Backend/XAudio2/Source/Loaders/WAVLoader.cpp:297-312 | a table written as the first chunk with its tag gives a view of its payload with one entry per word |
| RecordImages.TableEntriesInImage | Backend/XAudio2/Source/Loaders/WAVLoader.cpp:311-312 | the written entries read back through the view |
| RecordImages.NoTableInImage | Backend/XAudio2/Source/Loaders/WAVLoader.cpp:297-315 | without a chunk with the tag there is no view and the count is 0 |
| RecordImages.WsmpLoopInImage | Backend/XAudio2/Source/Loaders/WAVLoader.cpp:208-235 | written DLS records with a forward or release loop give that first loop, whatever `smpl` chunks exist |
| RecordImages.SmplLoopInImage | Backend/XAudio2/Source/Loaders/WAVLoader.cpp:237-264 | written MIDI records give the first forward loop (or none) when the first `wsmp` chunk, if any, has no usable loop, wherever the two chunks lie |
| Findings.CanonicalPcmCbSizeAsWritten | Backend/XAudio2/Source/Loaders/WAVLoader.cpp:166-172 | in the canonical 44-byte PCM header the copy as written reads cbSize 0x6164 (`d`, `a` of the `data` tag) |
| Findings.TrailingPcmFormatReadsPastEnd | Backend/XAudio2/Source/Loaders/WAVLoader.cpp:172 | when a 16-byte PCM `fmt ` ends the buffer, the file is accepted and the cbSize field (record bytes 16 and 17) would end past the buffer |
| Findings.SmplBehindLooplessWsmpAsWritten | Backend/XAudio2/Source/Loaders/WAVLoader.cpp:208-239 | with a loop-less `wsmp` then a `smpl` chunk holding a forward loop, the search as written returns no loop; the corrected one returns that loop |

## Left out

- `LoadAudioFromFile`, `LoadWAVAudioFromFile`, `LoadWAVAudioFromFileEx` and the handle
  helpers (WAVLoader.cpp:14-18, 320-374, 397-490): Win32 file I/O and heap
  allocation. Only the in-memory entry points are modelled.
- Null output pointers (`pwfx`, `pLoopStart`, `pData`, …): the outputs are results
  or fields of a `WAVData` object, which cannot be null. The E_POINTER and
  E_INVALIDARG results for a null buffer are modelled.
- Reads past the end of the caller's buffer are undefined behaviour in C++. The
  model reports the chunk-header and form-type reads as `ReadPastEnd` and does not
  say which bytes would be read.
- `WavLoader.FindFormatAndData` does not report the `cbSize` read of a 16-byte
  `fmt ` chunk that ends the buffer: it uses the corrected copy, which reads no
  `cbSize` there. The copy as written (`ReadFormatAsWritten`) is only defined
  where those two bytes are in the buffer; `TrailingPcmFormatReadsPastEnd` shows
  a file on which they are not.
- `FindChunk` returns null for a null `data` pointer (WAVLoader.cpp:22-23). The model
  has no null offset: every call site passes the caller's buffer, already checked
  for null, or a pointer into it.
- TruncatedFileFails: the failure it promises for a truncated file may be
  `ReadPastEnd`, which is undefined behaviour in the source (a header read past the
  cut), not an HRESULT the loader returns.
- TruncatedLoadFails: likewise, `Failure(ReadPastEnd)` stands for a read past the
  cut in the source, not for a rejection with an HRESULT.
- A 32-bit build is not modelled. Pointer and `size_t` arithmetic is taken as
  64-bit, so the sums at WAVLoader.cpp:221 and 250 do not wrap. The `uint32`
  difference at 259 does wrap and is modelled.
- The `seek` table data is big-endian, but the code never converts it, so the model
  does no byte swap either. The entries are read back as written.
- The writer (`WavWriter`, `RecordImages`) has no counterpart in the source. It
  only gives the parser an independent partner.
- `WavLoader.LoadWAVAudioInMemory` models the three out-parameters as three fields
  of a `WAVData` object, not as separate pointers. It does not model aliasing
  between them.

## Findings

| source | as written | input that shows it | evidently intended | confidence | as-written member | corrected member |
|---|---|---|---|---|---|---|
| Backend/XAudio2/Source/Loaders/WAVLoader.cpp:166-172 | `cbSize` is copied from offset 16 of the format record even when the `fmt ` chunk holds only a 16-byte PCMWAVEFORMAT | the canonical 44-byte PCM header: cbSize becomes 0x6164; a file whose 16-byte `fmt ` chunk is last: the two bytes lie past the buffer | cbSize 0 for a record shorter than a WAVEFORMATEX | high; not executed | Findings.CanonicalPcmCbSizeAsWritten | WavLoader.ReadFormat |
| Backend/XAudio2/Source/Loaders/WAVLoader.cpp:208-239 | after a `wsmp` chunk without a usable loop, the `smpl` walk starts at the `wsmp` payload and reads its fields as chunk headers | a WAVE file with a loop-less 20-byte `wsmp` chunk followed by a `smpl` chunk with one forward loop: the walk jumps past the container and no loop is returned | the `smpl` walk starts at the container's first sub-chunk, like the `wsmp` walk | high; not executed | Findings.SmplBehindLooplessWsmpAsWritten | WavLoader.FindLoopInfo |
