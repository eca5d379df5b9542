/**
 * Written tables and loop records read back: a 'dpds' or 'seek' payload of
 * uint32 entries gives FindTable's view and count, and 'wsmp' and 'smpl'
 * payloads give FindLoopInfo the loop that the records hold.
 */
module RecordImages {
  import opened Common
  import opened WavFormat
  import opened ChunkScan
  import opened WavLoader
  import opened WavWriter

  /** uint32 words written little-endian, back to back. */
  function WordsBytes(ws: seq<uint32>): (s: seq<uint8>)
    ensures |s| == 4 * |ws|
  {
    if ws == [] then [] else LE32(ws[0]) + WordsBytes(ws[1..])
  }

  /** Words written at p read back, word k at p + 4k. */
  lemma {:induction false} WordsReadBack(buf: seq<uint8>, p: nat, ws: seq<uint32>)
    requires HoldsAt(buf, p, WordsBytes(ws))
    ensures forall k :: 0 <= k < |ws| ==> U32(buf, p + 4 * k) == ws[k]
    decreases |ws|
  {
    if ws != [] {
      SplitAt(buf, p, LE32(ws[0]), WordsBytes(ws[1..]));
      ReadsBack32(buf, p, ws[0]);
      WordsReadBack(buf, p + 4, ws[1..]);
      forall k | 1 <= k < |ws|
        ensures U32(buf, p + 4 * k) == ws[k]
      {
        assert p + 4 * k == p + 4 + 4 * (k - 1) && ws[1..][k - 1] == ws[k];
      }
    }
  }

  // ---------------------------------------------------------------------------
  // Tables
  // ---------------------------------------------------------------------------

  /** A payload of whole words is a table of that many entries. */
  lemma {:induction false} WordCount(size: nat, n: nat)
    requires size == 4 * n
    ensures size % 4 == 0 && size / 4 == n
  {
  }

  /** FindTable on a container whose first chunk with the tag has a payload of n whole words inside the buffer: a view of n entries. */
  lemma {:induction false} TableAt(buf: seq<uint8>, riff: Riff, tag: uint32, sp: Span, n: nat)
    requires LocateRiff(buf) == Ok(riff) && IsAudioForm(riff.form)
    requires FindInRiff(buf, riff, tag) == Ok(Some(sp)) && sp.End() <= |buf| && riff.Body() + RIFF_CHUNK_SIZE <= sp.start
    requires sp.size == 4 * n
    ensures FindTable(Some(buf), tag) == Ok(Table(Some(sp.start), n))
  {
    WordCount(sp.size, n);
  }

  /** FindTable on a container that holds a chunk header but none with the tag: no view. */
  lemma {:induction false} NoTableAt(buf: seq<uint8>, riff: Riff, tag: uint32)
    requires LocateRiff(buf) == Ok(riff) && IsAudioForm(riff.form)
    requires FindInRiff(buf, riff, tag) == Ok(None) && riff.Body() + RIFF_CHUNK_SIZE <= |buf|
    ensures FindTable(Some(buf), tag) == Ok(NO_TABLE)
  {
  }

  /**
   * A table written as the payload of the first chunk with its tag: FindTable
   * returns a view of that payload with one entry per word.
   */
  lemma {:induction false} TableInImage(buf: seq<uint8>, form: uint32, cs: seq<Chunk>, tag: uint32, ws: seq<uint32>)
    requires LaidOut(buf, form, cs) && IsAudioForm(form)
    requires FirstWithTag(cs, tag).Some? && cs[FirstWithTag(cs, tag).value].payload == WordsBytes(ws)
    ensures FindTable(Some(buf), tag) == Ok(Table(Some(PayloadSpan(cs, FirstWithTag(cs, tag).value).start), |ws|))
  {
    var sp := PayloadSpan(cs, FirstWithTag(cs, tag).value);
    var riff := Riff(0, 4 + |ChunksBytes(cs)|, form);
    FindInImage(buf, form, cs, tag);
    assert FindInRiff(buf, riff, tag) == Ok(Some(sp));
    TableAt(buf, riff, tag, sp, |ws|);
  }

  /** The entries of a written table read back through the view FindTable returns. */
  lemma {:induction false} TableEntriesInImage(buf: seq<uint8>, form: uint32, cs: seq<Chunk>, tag: uint32, ws: seq<uint32>)
    requires LaidOut(buf, form, cs) && IsAudioForm(form)
    requires FirstWithTag(cs, tag).Some? && cs[FirstWithTag(cs, tag).value].payload == WordsBytes(ws)
    ensures FindTable(Some(buf), tag).Ok? && FindTable(Some(buf), tag).value.view.Some?
    ensures var t := FindTable(Some(buf), tag).value;
            t.count == |ws| && t.view.value + 4 * t.count <= |buf| &&
            forall k :: 0 <= k < |ws| ==> U32(buf, t.view.value + 4 * k) == ws[k]
  {
    TableInImage(buf, form, cs, tag, ws);
    WordsInImage(buf, cs, FirstWithTag(cs, tag).value, ws);
    ChunkWithinList(cs, FirstWithTag(cs, tag).value);
    WrittenHeaders(buf, RIFF_CHUNK_HEADER_SIZE, cs);
  }

  /** Words written as the payload of chunk i of a laid-out image read back from its payload span. */
  lemma {:induction false} WordsInImage(buf: seq<uint8>, cs: seq<Chunk>, i: nat, ws: seq<uint32>)
    requires HoldsChunks(buf, cs) && i < |cs| && cs[i].payload == WordsBytes(ws)
    ensures PayloadSpan(cs, i).start + 4 * |ws| <= |buf|
    ensures forall k :: 0 <= k < |ws| ==> U32(buf, PayloadSpan(cs, i).start + 4 * k) == ws[k]
  {
    ChunkInImage(buf, cs, i);
    WordsReadBack(buf, PayloadSpan(cs, i).start, ws);
  }

  /** An image with chunks but none with the tag has no table: FindTable gives no view and a count of zero. */
  lemma {:induction false} NoTableInImage(buf: seq<uint8>, form: uint32, cs: seq<Chunk>, tag: uint32)
    requires LaidOut(buf, form, cs) && IsAudioForm(form) && cs != []
    requires FirstWithTag(cs, tag).None?
    ensures FindTable(Some(buf), tag) == Ok(NO_TABLE)
  {
    var riff := Riff(0, 4 + |ChunksBytes(cs)|, form);
    FindInImage(buf, form, cs, tag);
    ChunkInImage(buf, cs, 0);
    NoTableAt(buf, riff, tag);
  }

  // ---------------------------------------------------------------------------
  // MIDI loops
  // ---------------------------------------------------------------------------

  /** A MIDILoop record. */
  datatype MidiLoopRecord = MidiLoopRecord(cuePointId: uint32, loopType: uint32, start: uint32, end: uint32,
                                           fraction: uint32, playCount: uint32)

  /** The six words of MIDI loop records, one record after the other. */
  function MidiLoopsWords(ls: seq<MidiLoopRecord>): (ws: seq<uint32>)
    ensures |ws| == 6 * |ls|
  {
    if ls == [] then []
    else [ls[0].cuePointId, ls[0].loopType, ls[0].start, ls[0].end, ls[0].fraction, ls[0].playCount] + MidiLoopsWords(ls[1..])
  }

  /** The type, start and end of record j are words 6j + 1, 6j + 2 and 6j + 3. */
  lemma {:induction false} MidiLoopWordsAt(ls: seq<MidiLoopRecord>, j: nat)
    requires j < |ls|
    ensures MidiLoopsWords(ls)[6 * j + 1] == ls[j].loopType
    ensures MidiLoopsWords(ls)[6 * j + 2] == ls[j].start
    ensures MidiLoopsWords(ls)[6 * j + 3] == ls[j].end
  {
    if j > 0 {
      MidiLoopWordsAt(ls[1..], j - 1);
    }
  }

  /**
   * A 'smpl' payload: a RIFFMIDISample whose loop count is the number of
   * records, then the records. The other header words are zero.
   */
  function SmplWords(ls: seq<MidiLoopRecord>): (ws: seq<uint32>)
    requires |ls| < 0x1_0000_0000
    ensures |ws| == 9 + 6 * |ls|
  {
    [0, 0, 0, 0, 0, 0, 0, |ls|, 0] + MidiLoopsWords(ls)
  }

  /** The loop the loader should take from MIDI records j onwards: the first forward one, its end inclusive. */
  function FirstForwardLoop(ls: seq<MidiLoopRecord>, j: nat): Option<LoopRegion>
    decreases |ls| - j
  {
    if j >= |ls| then None
    else if ls[j].loopType == MIDI_LOOP_FORWARD then Some(LoopRegion(ls[j].start, Wrap32(ls[j].end - ls[j].start + 1)))
    else FirstForwardLoop(ls, j + 1)
  }

  /** The loader's search over written MIDI records finds the first forward loop. */
  lemma {:induction false} MidiRecordsReadBack(buf: seq<uint8>, q: nat, ls: seq<MidiLoopRecord>, j: nat)
    requires q + 24 * |ls| <= |buf| && j <= |ls|
    requires forall k :: 0 <= k < 6 * |ls| ==> U32(buf, q + 4 * k) == MidiLoopsWords(ls)[k]
    decreases |ls| - j
    ensures FirstMidiLoop(buf, q, |ls|, j) == FirstForwardLoop(ls, j)
  {
    if j < |ls| {
      MidiLoopWordsAt(ls, j);
      assert U32(buf, q + 4 * (6 * j + 1)) == ls[j].loopType;
      assert U32(buf, q + 4 * (6 * j + 2)) == ls[j].start;
      assert U32(buf, q + 4 * (6 * j + 3)) == ls[j].end;
      MidiRecordsReadBack(buf, q, ls, j + 1);
    }
  }

  /** The loop a payload of written MIDI records gives MidiLoop. */
  lemma {:induction false} MidiLoopOfWords(buf: seq<uint8>, smpl: Span, ls: seq<MidiLoopRecord>)
    requires |ls| < 0x1_0000_0000 && smpl.End() <= |buf| && smpl.size == 4 * |SmplWords(ls)|
    requires HoldsAt(buf, smpl.start, WordsBytes(SmplWords(ls)))
    ensures MidiLoop(buf, smpl) == FirstForwardLoop(ls, 0)
  {
    var ws := SmplWords(ls);
    WordsReadBack(buf, smpl.start, ws);
    assert ws[7] == |ls|;
    assert U32(buf, smpl.start + 4 * 7) == |ls|;
    forall k | 0 <= k < 6 * |ls|
      ensures U32(buf, smpl.start + RIFF_MIDI_SAMPLE_SIZE + 4 * k) == MidiLoopsWords(ls)[k]
    {
      assert U32(buf, smpl.start + 4 * (9 + k)) == ws[9 + k];
    }
    MidiRecordsReadBack(buf, smpl.start + RIFF_MIDI_SAMPLE_SIZE, ls, 0);
  }

  // ---------------------------------------------------------------------------
  // DLS loops
  // ---------------------------------------------------------------------------

  /** A DLSLoop record. */
  datatype DlsLoopRecord = DlsLoopRecord(loopType: uint32, start: uint32, length: uint32)

  /** The four words of DLS loop records, each with its own size 16 first. */
  function DlsLoopsWords(ls: seq<DlsLoopRecord>): (ws: seq<uint32>)
    ensures |ws| == 4 * |ls|
  {
    if ls == [] then [] else [DLS_LOOP_SIZE, ls[0].loopType, ls[0].start, ls[0].length] + DlsLoopsWords(ls[1..])
  }

  /** The type, start and length of record j are words 4j + 1, 4j + 2 and 4j + 3. */
  lemma {:induction false} DlsLoopWordsAt(ls: seq<DlsLoopRecord>, j: nat)
    requires j < |ls|
    ensures DlsLoopsWords(ls)[4 * j + 1] == ls[j].loopType
    ensures DlsLoopsWords(ls)[4 * j + 2] == ls[j].start
    ensures DlsLoopsWords(ls)[4 * j + 3] == ls[j].length
  {
    if j > 0 {
      DlsLoopWordsAt(ls[1..], j - 1);
    }
  }

  /**
   * A 'wsmp' payload: a 20-byte RIFFDLSSample (size 20, the 16-bit unity note
   * and fine tune as one zero word, zero gain and options) with the loop count,
   * then the records.
   */
  function WsmpWords(ls: seq<DlsLoopRecord>): (ws: seq<uint32>)
    requires |ls| < 0x1_0000_0000
    ensures |ws| == 5 + 4 * |ls|
  {
    [RIFF_DLS_SAMPLE_SIZE, 0, 0, 0, |ls|] + DlsLoopsWords(ls)
  }

  /** The loop the loader should take from DLS records j onwards: the first forward or release one, verbatim. */
  function FirstPlayableLoop(ls: seq<DlsLoopRecord>, j: nat): Option<LoopRegion>
    decreases |ls| - j
  {
    if j >= |ls| then None
    else if ls[j].loopType in {DLS_LOOP_FORWARD, DLS_LOOP_RELEASE} then Some(LoopRegion(ls[j].start, ls[j].length))
    else FirstPlayableLoop(ls, j + 1)
  }

  /** The loader's search over written DLS records finds the first forward or release loop. */
  lemma {:induction false} DlsRecordsReadBack(buf: seq<uint8>, q: nat, ls: seq<DlsLoopRecord>, j: nat)
    requires q + 16 * |ls| <= |buf| && j <= |ls|
    requires forall k :: 0 <= k < 4 * |ls| ==> U32(buf, q + 4 * k) == DlsLoopsWords(ls)[k]
    decreases |ls| - j
    ensures FirstDlsLoop(buf, q, |ls|, j) == FirstPlayableLoop(ls, j)
  {
    if j < |ls| {
      DlsLoopWordsAt(ls, j);
      assert U32(buf, q + 4 * (4 * j + 1)) == ls[j].loopType;
      assert U32(buf, q + 4 * (4 * j + 2)) == ls[j].start;
      assert U32(buf, q + 4 * (4 * j + 3)) == ls[j].length;
      DlsRecordsReadBack(buf, q, ls, j + 1);
    }
  }

  /** The loop a payload of written DLS records gives DlsLoop. */
  lemma {:induction false} DlsLoopOfWords(buf: seq<uint8>, wsmp: Span, ls: seq<DlsLoopRecord>)
    requires |ls| < 0x1_0000_0000 && wsmp.End() <= |buf| && wsmp.size == 4 * |WsmpWords(ls)|
    requires HoldsAt(buf, wsmp.start, WordsBytes(WsmpWords(ls)))
    ensures DlsLoop(buf, wsmp) == FirstPlayableLoop(ls, 0)
  {
    var ws := WsmpWords(ls);
    WordsReadBack(buf, wsmp.start, ws);
    assert ws[0] == RIFF_DLS_SAMPLE_SIZE && ws[4] == |ls|;
    assert U32(buf, wsmp.start + 4 * 0) == RIFF_DLS_SAMPLE_SIZE;
    assert U32(buf, wsmp.start + 4 * 4) == |ls|;
    forall k | 0 <= k < 4 * |ls|
      ensures U32(buf, wsmp.start + RIFF_DLS_SAMPLE_SIZE + 4 * k) == DlsLoopsWords(ls)[k]
    {
      assert U32(buf, wsmp.start + 4 * (5 + k)) == ws[5 + k];
    }
    DlsRecordsReadBack(buf, wsmp.start + RIFF_DLS_SAMPLE_SIZE, ls, 0);
  }

  /**
   * A WAVE image whose first 'wsmp' chunk holds DLS loop records with a
   * forward or release loop among them: FindLoopInfo returns the first such
   * loop, whatever 'smpl' chunks follow.
   */
  lemma {:induction false} WsmpLoopInImage(buf: seq<uint8>, cs: seq<Chunk>, ls: seq<DlsLoopRecord>)
    requires LaidOut(buf, TAG_WAVE_FILE, cs) && |ls| < 0x1_0000_0000
    requires FirstWithTag(cs, TAG_DLS_SAMPLE).Some? &&
             cs[FirstWithTag(cs, TAG_DLS_SAMPLE).value].payload == WordsBytes(WsmpWords(ls))
    requires FirstPlayableLoop(ls, 0).Some?
    ensures LoopInfo(Some(buf)) == Ok(FirstPlayableLoop(ls, 0).value)
  {
    var wsmp := PayloadSpan(cs, FirstWithTag(cs, TAG_DLS_SAMPLE).value);
    FindInImage(buf, TAG_WAVE_FILE, cs, TAG_DLS_SAMPLE);
    ChunkInImage(buf, cs, FirstWithTag(cs, TAG_DLS_SAMPLE).value);
    DlsLoopOfWords(buf, wsmp, ls);
  }

  /**
   * A WAVE image whose first 'smpl' chunk holds MIDI loop records, and whose
   * first 'wsmp' chunk, if any, holds DLS loop records none of which is a
   * forward or release loop: FindLoopInfo returns the first forward MIDI loop,
   * or no loop, wherever the two chunks lie.
   */
  lemma {:induction false} SmplLoopInImage(buf: seq<uint8>, cs: seq<Chunk>, dls: seq<DlsLoopRecord>, ls: seq<MidiLoopRecord>)
    requires LaidOut(buf, TAG_WAVE_FILE, cs) && |dls| < 0x1_0000_0000 && |ls| < 0x1_0000_0000
    requires FirstWithTag(cs, TAG_DLS_SAMPLE).Some? ==>
               cs[FirstWithTag(cs, TAG_DLS_SAMPLE).value].payload == WordsBytes(WsmpWords(dls)) &&
               FirstPlayableLoop(dls, 0).None?
    requires FirstWithTag(cs, TAG_MIDI_SAMPLE).Some? &&
             cs[FirstWithTag(cs, TAG_MIDI_SAMPLE).value].payload == WordsBytes(SmplWords(ls))
    ensures LoopInfo(Some(buf)) == Ok(if FirstForwardLoop(ls, 0).Some? then FirstForwardLoop(ls, 0).value else NO_LOOP)
  {
    var smpl := PayloadSpan(cs, FirstWithTag(cs, TAG_MIDI_SAMPLE).value);
    FindInImage(buf, TAG_WAVE_FILE, cs, TAG_DLS_SAMPLE);
    if FirstWithTag(cs, TAG_DLS_SAMPLE).Some? {
      WsmpWithoutLoop(buf, cs, dls);
    }
    FindInImage(buf, TAG_WAVE_FILE, cs, TAG_MIDI_SAMPLE);
    ChunkInImage(buf, cs, FirstWithTag(cs, TAG_MIDI_SAMPLE).value);
    MidiLoopOfWords(buf, smpl, ls);
  }

  /** The payload of the first 'wsmp' chunk of an image, holding DLS records without a forward or release loop, gives no loop. */
  lemma {:induction false} WsmpWithoutLoop(buf: seq<uint8>, cs: seq<Chunk>, dls: seq<DlsLoopRecord>)
    requires HoldsChunks(buf, cs) && |dls| < 0x1_0000_0000
    requires FirstWithTag(cs, TAG_DLS_SAMPLE).Some? &&
             cs[FirstWithTag(cs, TAG_DLS_SAMPLE).value].payload == WordsBytes(WsmpWords(dls)) &&
             FirstPlayableLoop(dls, 0).None?
    ensures var wsmp := PayloadSpan(cs, FirstWithTag(cs, TAG_DLS_SAMPLE).value);
            wsmp.End() <= |buf| && DlsLoop(buf, wsmp).None?
  {
    var i := FirstWithTag(cs, TAG_DLS_SAMPLE).value;
    ChunkInImage(buf, cs, i);
    DlsLoopOfWords(buf, PayloadSpan(cs, i), dls);
  }
}
