/**
 * The MD5 message digest of RFC 1321 as a function of the whole message:
 * pad the message (section 3.1), append its length (section 3.2), start from
 * the initial state (section 3.3), compress every 64-byte block in turn
 * (section 3.4) and write out the final state (section 3.5).
 *
 * The streaming context of md5.cpp is proved against these definitions.
 */
module Rfc1321 {
  import opened LittleEndian
  import opened Compression

  /** md5Init's "mysterious initialization constants", words A, B, C, D of section 3.3. */
  const InitState: seq<word> := [0x67452301, 0xefcdab89, 0x98badcfe, 0x10325476]

  /**
   * Laid out as bytes, low-order byte first, the initial state is the four
   * words A = 01 23 45 67, B = 89 ab cd ef, C = fe dc ba 98 and D = 76 54 32 10
   * as section 3.3 lists them.
   */
  lemma InitStateBytes()
    ensures Bytes(InitState) == [0x01, 0x23, 0x45, 0x67, 0x89, 0xab, 0xcd, 0xef,
                                 0xfe, 0xdc, 0xba, 0x98, 0x76, 0x54, 0x32, 0x10]
  {
    assert InitState[1..][1..][1..][1..] == [];
  }

  /** n zero bytes. */
  function Zeros(n: nat): (z: seq<byte>)
    ensures |z| == n
  {
    seq(n, _ => 0)
  }

  /** n zero words. */
  function ZeroWords(n: nat): (z: seq<word>)
    ensures |z| == n
  {
    seq(n, _ => 0)
  }

  /**
   * The number of zero bytes after the 0x80 byte: the fewest that leave the
   * padded message 8 bytes short of a multiple of 64.
   */
  function PadZeros(n: nat): (z: nat)
    ensures z < 64 && (n + 1 + z + 8) % 64 == 0
  {
    (55 - n % 64) % 64
  }

  /** The low length word, (bytes << 3) & 0xFFFFFFFF: the bit count modulo 2^32. */
  function LengthLo(n: nat): (w: nat)
    ensures w < 0x1_0000_0000
  {
    (n * 8) % 0x1_0000_0000
  }

  /** The high length word, (bytes >> 29) & 0xFFFFFFFF: the next 32 bits of the bit count. */
  function LengthHi(n: nat): (w: nat)
    ensures w < 0x1_0000_0000
  {
    (n / 0x2000_0000) % 0x1_0000_0000
  }

  /** The two length words, low word first, are the 64-bit bit count of section 3.2. */
  lemma LengthWords(n: nat)
    ensures LengthLo(n) + 0x1_0000_0000 * LengthHi(n) == (n * 8) % 0x1_0000_0000_0000_0000
  {
    var q, r := n / 0x2000_0000, n % 0x2000_0000;
    assert n * 8 == 0x1_0000_0000 * q + 8 * r;
    Mod32(n * 8, q, 8 * r);
    var q1, r1 := q / 0x1_0000_0000, q % 0x1_0000_0000;
    assert n * 8 == 0x1_0000_0000_0000_0000 * q1 + (0x1_0000_0000 * r1 + 8 * r);
    Mod64(n * 8, q1, 0x1_0000_0000 * r1 + 8 * r);
  }

  /** a % 2^32 is the remainder r of any decomposition a == 2^32 * q + r. */
  lemma Mod32(a: int, q: int, r: int)
    requires a == 0x1_0000_0000 * q + r && 0 <= r < 0x1_0000_0000
    ensures a % 0x1_0000_0000 == r
  {
  }

  /** a % 2^64 is the remainder r of any decomposition a == 2^64 * q + r. */
  lemma Mod64(a: int, q: int, r: int)
    requires a == 0x1_0000_0000_0000_0000 * q + r && 0 <= r < 0x1_0000_0000_0000_0000
    ensures a % 0x1_0000_0000_0000_0000 == r
  {
  }

  /** a / 64 and a % 64 are the quotient q and remainder r of any decomposition a == 64 * q + r. */
  lemma ModBlock(a: int, q: int, r: int)
    requires a == 64 * q + r && 0 <= r < 64
    ensures a / 64 == q && a % 64 == r
  {
  }

  /** Sums of whole numbers of blocks are whole numbers of blocks. */
  lemma Aligned(x: nat, y: nat)
    requires x % 64 == 0 && y % 64 == 0
    ensures (x + y) % 64 == 0
  {
    ModBlock(x + y, x / 64 + y / 64, 0);
  }

  /** The eight bytes that end the padded message: the length words, each least significant byte first. */
  function LengthBytes(n: nat): (p: seq<byte>)
    ensures |p| == 8
  {
    StoreWord(LengthLo(n) as word) + StoreWord(LengthHi(n) as word)
  }

  /** The message padded as in sections 3.1 and 3.2. */
  function Pad(m: seq<byte>): seq<byte>
  {
    m + [0x80] + Zeros(PadZeros(|m|)) + LengthBytes(|m|)
  }

  /**
   * The padded message starts with the message and a single 0x80 byte, has
   * only zeros after that up to the eight length bytes, and is a whole
   * number of blocks, one more block than the message's complete blocks when
   * the last 0 .. 55 bytes leave room for the 0x80 byte and the length, and
   * two more when they do not.
   */
  lemma PadLayout(m: seq<byte>)
    ensures |Pad(m)| % 64 == 0 && (|Pad(m)| - 8) % 64 == 56
    ensures Pad(m)[..|m|] == m && Pad(m)[|m|] == 0x80
    ensures forall i :: |m| < i < |Pad(m)| - 8 ==> Pad(m)[i] == 0
    ensures Pad(m)[|Pad(m)| - 8..] == LengthBytes(|m|)
    ensures |m| % 64 < 56 ==> |Pad(m)| == |m| - |m| % 64 + 64
    ensures |m| % 64 >= 56 ==> |Pad(m)| == |m| - |m| % 64 + 128
  {
    var z, c := PadZeros(|m|), |m| % 64;
    var p := Pad(m);
    assert |p| == |m| + 1 + z + 8;
    var w := |m| / 64;
    assert |m| == 64 * w + c;
    if c < 56 {
      ModBlock(55 - c, 0, 55 - c);
      assert |p| == 64 * (w + 1);
      ModBlock(|p|, w + 1, 0);
      ModBlock(|p| - 8, w, 56);
    } else {
      ModBlock(55 - c, -1, 119 - c);
      assert |p| == 64 * (w + 2);
      ModBlock(|p|, w + 2, 0);
      ModBlock(|p| - 8, w + 1, 56);
    }
    forall i | |m| < i < |p| - 8
      ensures p[i] == 0
    {
      assert p[i] == Zeros(z)[i - |m| - 1];
    }
    assert p[|p| - 8..] == LengthBytes(|m|);
  }

  /** The last |m| % 64 bytes of m: those after its complete blocks. */
  function Tail(m: seq<byte>): (t: seq<byte>)
    ensures |t| < 64 && |t| == |m| % 64
  {
    m[|m| - |m| % 64..]
  }

  /** The complete blocks of m. */
  function Whole(m: seq<byte>): (w: seq<byte>)
    ensures |w| % 64 == 0 && |w| == |m| - |m| % 64 && w + Tail(m) == m
  {
    m[..|m| - |m| % 64]
  }

  /** A message split into whole blocks and fewer than 64 more bytes has those as its complete blocks and tail. */
  lemma WholeSplit(m: seq<byte>, w: seq<byte>, t: seq<byte>)
    requires m == w + t && |w| % 64 == 0 && |t| < 64
    ensures Whole(m) == w && Tail(m) == t
  {
    ModBlock(|m|, |w| / 64, |t|);
  }

  /** The state after compressing the blocks of m, in order, starting from h. */
  function ProcessBlocks(h: seq<word>, m: seq<byte>): (r: seq<word>)
    requires |h| == 4 && |m| % 64 == 0
    ensures |r| == 4
    decreases |m|, 1
  {
    if |m| == 0 then h else ProcessLast(h, m)
  }

  /** The fold over a non-empty m: its last block compressed into the fold over the blocks before it. */
  function ProcessLast(h: seq<word>, m: seq<byte>): (r: seq<word>)
    requires |h| == 4 && |m| % 64 == 0 && |m| > 0
    ensures |r| == 4
    decreases |m|, 0
  {
    Compress(ProcessBlocks(h, m[..|m| - 64]), Words(m[|m| - 64..]))
  }

  /** Processing one more block compresses it into the state reached so far. */
  lemma ProcessBlocksStep(h: seq<word>, m: seq<byte>, b: seq<byte>)
    requires |h| == 4 && |m| % 64 == 0 && |b| == 64
    ensures ProcessBlocks(h, m + b) == Compress(ProcessBlocks(h, m), Words(b))
  {
    assert (m + b)[..|m + b| - 64] == m;
    assert (m + b)[|m + b| - 64..] == b;
  }

  /** Blocks can be processed in any grouping: the fold over a ++ b is the fold over b from the fold over a. */
  lemma {:induction false} ProcessBlocksConcat(h: seq<word>, a: seq<byte>, b: seq<byte>)
    requires |h| == 4 && |a| % 64 == 0 && |b| % 64 == 0
    ensures ProcessBlocks(h, a + b) == ProcessBlocks(ProcessBlocks(h, a), b)
    decreases |b|
  {
    if |b| == 0 {
      assert a + b == a;
    } else {
      var b0, last := b[..|b| - 64], b[|b| - 64..];
      assert b == b0 + last;
      assert a + b == (a + b0) + last;
      ProcessBlocksConcat(h, a, b0);
      Aligned(|a|, |b0|);
      ProcessBlocksStep(h, a + b0, last);
      ProcessBlocksStep(ProcessBlocks(h, a), b0, last);
    }
  }

  /**
   * The padded message is the message's complete blocks followed by one
   * final block (the tail, 0x80, zeros up to byte 56 and the length) when the
   * tail is shorter than 56 bytes, and by two blocks otherwise: the tail, 0x80
   * and zeros up to byte 64, then 56 zeros and the length.
   */
  lemma PadBlocks(m: seq<byte>)
    ensures |m| % 64 < 56 ==>
      Pad(m) == Whole(m) + (Tail(m) + [0x80] + Zeros(55 - |m| % 64) + LengthBytes(|m|))
    ensures |m| % 64 >= 56 ==>
      Pad(m) == Whole(m) + (Tail(m) + [0x80] + Zeros(63 - |m| % 64)) + (Zeros(56) + LengthBytes(|m|))
  {
    var c := |m| % 64;
    assert m == Whole(m) + Tail(m);
    if c < 56 {
      ModBlock(55 - c, 0, 55 - c);
    } else {
      ModBlock(55 - c, -1, 119 - c);
      assert Zeros(119 - c) == Zeros(63 - c) + Zeros(56);
    }
  }

  /** A 56-byte prefix followed by the length bytes reads as its 14 words followed by the two length words. */
  lemma LengthBlock(p: seq<byte>, n: nat)
    requires |p| == 56
    ensures Words(p + LengthBytes(n)) == Words(p) + [LengthLo(n) as word, LengthHi(n) as word]
  {
    WordsAppend(p, LengthBytes(n));
    WordsOfTwo(LengthLo(n) as word, LengthHi(n) as word);
  }

  /** The state of the streaming context after absorbing m: the fold over its complete blocks. */
  function Absorbed(m: seq<byte>): (r: seq<word>)
    ensures |r| == 4
  {
    ProcessBlocks(InitState, Whole(m))
  }

  /** The digest of m: the final state, word by word, least significant byte first. */
  function MD5(m: seq<byte>): (d: seq<byte>)
    ensures |d| == 16
  {
    PadLayout(m);
    Bytes(ProcessBlocks(InitState, Pad(m)))
  }
}
