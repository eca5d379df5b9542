/** Fixed-width unsigned integers, nullable values and little-endian access to a byte buffer. */
module Common {

  /** A nullable value: `None` stands for a null pointer. */
  datatype Option<T> = None | Some(value: T)

  type uint8 = x: int | 0 <= x < 0x100
  type uint16 = x: int | 0 <= x < 0x1_0000
  type uint32 = x: int | 0 <= x < 0x1_0000_0000
  type uint64 = x: int | 0 <= x < 0x1_0000_0000_0000_0000

  /** Reduction modulo 2^32: the result of C++ arithmetic on uint32 operands. */
  function Wrap32(x: int): (r: uint32)
    ensures 0 <= x < 0x1_0000_0000 ==> r == x
    ensures (r - x) % 0x1_0000_0000 == 0
  {
    x % 0x1_0000_0000
  }

  /** The little-endian uint16 stored at buf[p], buf[p + 1]. */
  function U16(buf: seq<uint8>, p: nat): uint16
    requires p + 2 <= |buf|
  {
    buf[p] as int + buf[p + 1] as int * 0x100
  }

  /** The little-endian uint32 stored at buf[p .. p + 4]. */
  function U32(buf: seq<uint8>, p: nat): uint32
    requires p + 4 <= |buf|
  {
    U16(buf, p) + U16(buf, p + 2) * 0x1_0000
  }

  /** The two bytes of x, least significant first. */
  function LE16(x: uint16): (s: seq<uint8>)
    ensures |s| == 2
  {
    [x % 0x100, x / 0x100]
  }

  /** The four bytes of x, least significant first. */
  function LE32(x: uint32): (s: seq<uint8>)
    ensures |s| == 4
  {
    LE16(x % 0x1_0000) + LE16(x / 0x1_0000)
  }

  /** Reading back what LE16 wrote gives the value, and writing what U16 read gives the bytes. */
  lemma {:induction false} LE16RoundTrip(x: uint16, buf: seq<uint8>, p: nat)
    requires p + 2 <= |buf|
    ensures U16(LE16(x), 0) == x
    ensures LE16(U16(buf, p)) == buf[p .. p + 2]
  {
  }

  /** Reading back what LE32 wrote gives the value, and writing what U32 read gives the bytes. */
  lemma {:induction false} LE32RoundTrip(x: uint32, buf: seq<uint8>, p: nat)
    requires p + 4 <= |buf|
    ensures U32(LE32(x), 0) == x
    ensures LE32(U32(buf, p)) == buf[p .. p + 4]
  {
    LE16RoundTrip(x % 0x1_0000, buf, p);
    LE16RoundTrip(x / 0x1_0000, buf, p + 2);
    var lo := U16(buf, p);
    var hi := U16(buf, p + 2);
    assert U32(buf, p) % 0x1_0000 == lo && U32(buf, p) / 0x1_0000 == hi;
    LE16RoundTrip(lo, buf, p);
    LE16RoundTrip(hi, buf, p + 2);
  }

  /** A read sees only the bytes it reads: the same bytes anywhere give the same value. */
  lemma {:induction false} U16Local(a: seq<uint8>, p: nat, b: seq<uint8>, q: nat)
    requires p + 2 <= |a| && q + 2 <= |b|
    requires a[p .. p + 2] == b[q .. q + 2]
    ensures U16(a, p) == U16(b, q)
  {
    assert a[p] == a[p .. p + 2][0] && a[p + 1] == a[p .. p + 2][1];
    assert b[q] == b[q .. q + 2][0] && b[q + 1] == b[q .. q + 2][1];
  }

  /** A read sees only the bytes it reads: the same bytes anywhere give the same value. */
  lemma {:induction false} U32Local(a: seq<uint8>, p: nat, b: seq<uint8>, q: nat)
    requires p + 4 <= |a| && q + 4 <= |b|
    requires a[p .. p + 4] == b[q .. q + 4]
    ensures U32(a, p) == U32(b, q)
  {
    assert a[p .. p + 2] == a[p .. p + 4][..2] && b[q .. q + 2] == b[q .. q + 4][..2];
    assert a[p + 2 .. p + 4] == a[p .. p + 4][2..] && b[q + 2 .. q + 4] == b[q .. q + 4][2..];
    U16Local(a, p, b, q);
    U16Local(a, p + 2, b, q + 2);
  }
}
