/**
 * FindChunk: the walk over a sequence of RIFF chunk headers. A region is given
 * by the offset of its first header and its end offset; the walk reads a header
 * (tag, size) and moves on by size + 8, without the word-alignment padding that
 * RIFF itself prescribes.
 */
module ChunkScan {
  import opened Common
  import opened WavFormat

  /**
   * The outcome of a walk: the offset of the matching header, no match, or
   * Overrun: the walk reached a header that starts inside the region but does
   * not fit in the buffer, which the C++ code would read past the buffer's end.
   */
  datatype Scan = Found(offset: nat) | Absent | Overrun

  /** The walk is still inside the region and reads the header at ptr: strictly more than 8 bytes remain. */
  predicate InRegion(ptr: nat, end: nat)
  {
    ptr + RIFF_CHUNK_SIZE < end
  }

  /** The header at ptr lies inside the buffer. */
  predicate Readable(buf: seq<uint8>, ptr: nat)
  {
    ptr + RIFF_CHUNK_SIZE <= |buf|
  }

  /** The tag of the header at ptr. */
  function TagAt(buf: seq<uint8>, ptr: nat): uint32
    requires Readable(buf, ptr)
  {
    U32(buf, ptr)
  }

  /** The declared payload size of the header at ptr. */
  function SizeAt(buf: seq<uint8>, ptr: nat): uint32
    requires Readable(buf, ptr)
  {
    U32(buf, ptr + CHUNK_SIZE_OFFSET)
  }

  /** Where the walk goes after the header at ptr: past its 8 bytes and its declared payload. */
  function NextHeader(buf: seq<uint8>, ptr: nat): (next: nat)
    requires Readable(buf, ptr)
    ensures next >= ptr + RIFF_CHUNK_SIZE
  {
    ptr + RIFF_CHUNK_SIZE + SizeAt(buf, ptr)
  }

  /** The offsets of the headers the walk reads from ptr, in order. */
  function Chain(buf: seq<uint8>, ptr: nat, end: nat): (c: seq<nat>)
    decreases end - ptr
    ensures forall k :: 0 <= k < |c| ==> ptr <= c[k] && InRegion(c[k], end) && Readable(buf, c[k])
    ensures |c| > 0 ==> c[0] == ptr
    ensures forall k :: 0 < k < |c| ==> c[k] == NextHeader(buf, c[k - 1])
    // the walk reads no further: the offset after the last header is outside the region or the buffer
    ensures |c| == 0 ==> !(InRegion(ptr, end) && Readable(buf, ptr))
    ensures |c| > 0 ==> !(InRegion(NextHeader(buf, c[|c| - 1]), end) && Readable(buf, NextHeader(buf, c[|c| - 1])))
  {
    if InRegion(ptr, end) && Readable(buf, ptr) then [ptr] + Chain(buf, NextHeader(buf, ptr), end) else []
  }

  /** The offset at which the walk from ptr stops reading headers: the first one past the chain. */
  function WalkEnd(buf: seq<uint8>, ptr: nat, end: nat): (stop: nat)
    decreases end - ptr
    ensures stop >= ptr
    ensures !InRegion(stop, end) || !Readable(buf, stop)
    ensures var c := Chain(buf, ptr, end);
            stop == if |c| == 0 then ptr else NextHeader(buf, c[|c| - 1])
  {
    if InRegion(ptr, end) && Readable(buf, ptr) then
      var next := NextHeader(buf, ptr);
      assert Chain(buf, ptr, end) == [ptr] + Chain(buf, next, end);
      WalkEnd(buf, next, end)
    else ptr
  }

  /** Header k of chain c is the first one tagged `tag`. */
  predicate IsFirstMatch(buf: seq<uint8>, c: seq<nat>, k: nat, tag: uint32)
    requires forall i :: 0 <= i < |c| ==> Readable(buf, c[i])
  {
    k < |c| && TagAt(buf, c[k]) == tag && forall i :: 0 <= i < k ==> TagAt(buf, c[i]) != tag
  }

  /** Some header of chain c is tagged `tag`. */
  predicate HasMatch(buf: seq<uint8>, c: seq<nat>, tag: uint32)
    requires forall i :: 0 <= i < |c| ==> Readable(buf, c[i])
  {
    exists k :: 0 <= k < |c| && TagAt(buf, c[k]) == tag
  }

  /**
   * What FindChunk returns for the region [ptr, end): the first header of the
   * walk whose tag matches; otherwise Absent when the walk leaves the region, or
   * Overrun when it stops at a header inside the region that the buffer does
   * not hold.
   */
  function ScanChunks(buf: seq<uint8>, ptr: nat, end: nat, tag: uint32): (r: Scan)
    decreases end - ptr
    ensures r.Found? ==> ptr <= r.offset && InRegion(r.offset, end) && Readable(buf, r.offset) && TagAt(buf, r.offset) == tag
  {
    if !InRegion(ptr, end) then Absent
    else if !Readable(buf, ptr) then Overrun
    else if TagAt(buf, ptr) == tag then Found(ptr)
    else ScanChunks(buf, NextHeader(buf, ptr), end, tag)
  }

  /**
   * ScanChunks against the chain of headers: it finds the first header of the
   * chain with the tag, and overruns exactly when no header matches and the
   * walk stops inside the region.
   */
  lemma {:induction false} ScanChunksIsFirstMatch(buf: seq<uint8>, ptr: nat, end: nat, tag: uint32)
    decreases end - ptr
    ensures ScanChunks(buf, ptr, end, tag).Found? <==> HasMatch(buf, Chain(buf, ptr, end), tag)
    ensures ScanChunks(buf, ptr, end, tag).Found? ==>
              exists k: nat :: IsFirstMatch(buf, Chain(buf, ptr, end), k, tag) &&
                               Chain(buf, ptr, end)[k] == ScanChunks(buf, ptr, end, tag).offset
    ensures ScanChunks(buf, ptr, end, tag).Overrun? <==>
              !HasMatch(buf, Chain(buf, ptr, end), tag) && InRegion(WalkEnd(buf, ptr, end), end)
  {
    if InRegion(ptr, end) && Readable(buf, ptr) {
      if TagAt(buf, ptr) == tag {
        assert IsFirstMatch(buf, Chain(buf, ptr, end), 0, tag);
      } else {
        ChainStep(buf, ptr, end, tag);
        ScanChunksIsFirstMatch(buf, NextHeader(buf, ptr), end, tag);
      }
    }
  }

  /** One step of the walk past a header that does not match: matches in the rest of the chain move up by one. */
  lemma {:induction false} ChainStep(buf: seq<uint8>, ptr: nat, end: nat, tag: uint32)
    requires InRegion(ptr, end) && Readable(buf, ptr) && TagAt(buf, ptr) != tag
    ensures HasMatch(buf, Chain(buf, ptr, end), tag) <==> HasMatch(buf, Chain(buf, NextHeader(buf, ptr), end), tag)
    ensures forall k: nat :: IsFirstMatch(buf, Chain(buf, NextHeader(buf, ptr), end), k, tag) ==>
                          IsFirstMatch(buf, Chain(buf, ptr, end), k + 1, tag) &&
                          Chain(buf, ptr, end)[k + 1] == Chain(buf, NextHeader(buf, ptr), end)[k]
  {
    var c' := Chain(buf, NextHeader(buf, ptr), end);
    assert Chain(buf, ptr, end) == [ptr] + c';
    ConsMatches(buf, ptr, c', tag);
  }

  /** Matches in a chain with one non-matching header in front. */
  lemma {:induction false} ConsMatches(buf: seq<uint8>, ptr: nat, c': seq<nat>, tag: uint32)
    requires Readable(buf, ptr) && TagAt(buf, ptr) != tag
    requires forall i :: 0 <= i < |c'| ==> Readable(buf, c'[i])
    ensures HasMatch(buf, [ptr] + c', tag) <==> HasMatch(buf, c', tag)
    ensures forall k: nat :: IsFirstMatch(buf, c', k, tag) ==> IsFirstMatch(buf, [ptr] + c', k + 1, tag) && ([ptr] + c')[k + 1] == c'[k]
  {
    var c := [ptr] + c';
    if HasMatch(buf, c', tag) {
      var k :| 0 <= k < |c'| && TagAt(buf, c'[k]) == tag;
      assert c[k + 1] == c'[k];
    }
    if HasMatch(buf, c, tag) {
      var k :| 0 <= k < |c| && TagAt(buf, c[k]) == tag;
      assert k > 0 && c'[k - 1] == c[k];
    }
    forall k: nat | IsFirstMatch(buf, c', k, tag)
      ensures IsFirstMatch(buf, c, k + 1, tag)
    {
      forall i | 0 <= i < k + 1 ensures TagAt(buf, c[i]) != tag {
        if i > 0 { assert c[i] == c'[i - 1]; }
      }
    }
  }

  /** Within a region that the buffer holds entirely, a walk never overruns. */
  lemma {:induction false} NoOverrunInsideBuffer(buf: seq<uint8>, ptr: nat, end: nat, tag: uint32)
    requires end <= |buf|
    ensures !ScanChunks(buf, ptr, end, tag).Overrun?
    decreases end - ptr
  {
    if InRegion(ptr, end) && Readable(buf, ptr) && TagAt(buf, ptr) != tag {
      NoOverrunInsideBuffer(buf, NextHeader(buf, ptr), end, tag);
    }
  }

  /**
   * FindChunk(data, sizeBytes, tag) with data at offset `data` of the buffer: the
   * while loop of the source, reading one header per iteration.
   */
  method FindChunk(buf: seq<uint8>, data: nat, sizeBytes: nat, tag: uint32) returns (r: Scan)
    ensures r == ScanChunks(buf, data, data + sizeBytes, tag)
  {
    var ptr := data;
    var end := data + sizeBytes;
    while InRegion(ptr, end)
      invariant ScanChunks(buf, ptr, end, tag) == ScanChunks(buf, data, end, tag)
      decreases end - ptr
    {
      if !Readable(buf, ptr) {
        return Overrun;
      }
      if TagAt(buf, ptr) == tag {
        return Found(ptr);
      }
      ptr := NextHeader(buf, ptr);
    }
    return Absent;
  }
}
