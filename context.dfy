/**
 * The streaming interface of md5.cpp: md5Init, md5Update and md5Final on an
 * md5Context, and the one-shot md5.
 *
 * The context's `in` buffer is a 64-byte block that md5.cpp reads both as
 * bytes (to copy input and padding into it) and, after byteSwap, as 16
 * words (to hand to md5Transform).  Here the byte view is the array
 * `pending` and the word view the array `block`; ByteSwap fills the word
 * view from the byte view.
 */
module Md5Context {
  import opened LittleEndian
  import opened Compression
  import opened Rfc1321

  /** memcpy(dst + at, src, |src|), and memset when src is all zeros. */
  method CopyInto(dst: array<byte>, at: nat, src: seq<byte>)
    requires at + |src| <= dst.Length
    modifies dst
    ensures dst[..] == old(dst[..])[..at] + src + old(dst[..])[at + |src|..]
  {
    ghost var d0 := dst[..];
    var k := 0;
    while k < |src|
      invariant k <= |src|
      invariant forall j :: 0 <= j < dst.Length ==> dst[j] == (if at <= j < at + k then src[j - at] else d0[j])
    {
      dst[at + k] := src[k];
      k := k + 1;
    }
    assert dst[..] == d0[..at] + src + d0[at + |src|..];
  }

  /**
   * The free space of md5Update, 64 - (bytes & 0x3f): between 1 and 64, and
   * exactly the number of bytes that take the count to the next block boundary.
   */
  function Space(bytes: nat): (t: nat)
    ensures 1 <= t <= 64 && (bytes + t) % 64 == 0
  {
    ModBlock(bytes + 64 - bytes % 64, bytes / 64 + 1, 0);
    64 - bytes % 64
  }

  /** byteSwap(in, 16): the word view of the pending block is the little-endian reading of its bytes. */
  method LoadBlock(pending: array<byte>, block: array<word>)
    requires pending.Length == 64 && block.Length == 16
    modifies block
    ensures block[..] == Words(pending[..])
  {
    ByteSwap(pending, block, 16);
    assert block[..] == block[..16];
    assert pending[..] == pending[..64];
  }

  /**
   * md5Transform of a block whose bytes are b: the fold of the compression
   * over the bytes done so far is extended by one block.
   */
  method Absorb(buf: array<word>, block: array<word>, ghost done: seq<byte>, ghost b: seq<byte>)
    requires buf.Length == 4 && block.Length == 16 && buf != block && |b| == 64
    requires |done| % 64 == 0 && buf[..] == ProcessBlocks(InitState, done) && block[..] == Words(b)
    modifies buf
    ensures |done + b| % 64 == 0
    ensures buf[..] == ProcessBlocks(InitState, done + b)
  {
    Aligned(|done|, 64);
    Transform(buf, block[..]);
    ProcessBlocksStep(InitState, done, b);
  }

  /** One whole block of input: copied into the pending block, byte-swapped and compressed. */
  method AbsorbChunk(buf: array<word>, pending: array<byte>, block: array<word>, ghost done: seq<byte>, chunk: seq<byte>)
    requires buf.Length == 4 && pending.Length == 64 && block.Length == 16 && buf != block && |chunk| == 64
    requires |done| % 64 == 0 && buf[..] == ProcessBlocks(InitState, done)
    modifies buf, pending, block
    ensures |done + chunk| % 64 == 0
    ensures buf[..] == ProcessBlocks(InitState, done + chunk)
  {
    CopyInto(pending, 0, chunk);
    assert pending[..] == chunk;
    LoadBlock(pending, block);
    Absorb(buf, block, done, chunk);
  }

  /**
   * The loop of md5Update: while 64 or more bytes of data remain from index
   * i, they are compressed as one block.  Returns the index j of the
   * remainder, shorter than a block, and the bytes processed so far.
   */
  method AbsorbBlocks(buf: array<word>, pending: array<byte>, block: array<word>, ghost done: seq<byte>, data: seq<byte>, i: nat)
      returns (j: nat, ghost done': seq<byte>, ghost count: nat)
    requires buf.Length == 4 && pending.Length == 64 && block.Length == 16 && buf != block
    requires i <= |data| && |done| % 64 == 0 && buf[..] == ProcessBlocks(InitState, done)
    modifies buf, pending, block
    ensures i <= j <= |data| && |data| - j < 64 && j - i == 64 * count
    ensures |done'| % 64 == 0 && buf[..] == ProcessBlocks(InitState, done')
    ensures done' + data[j..] == done + data[i..]
  {
    j, done', count := i, done, 0;
    while |data| - j >= 64
      invariant i <= j <= |data| && j - i == 64 * count
      invariant |done'| % 64 == 0 && buf[..] == ProcessBlocks(InitState, done')
      invariant done' + data[j..] == done + data[i..]
      decreases |data| - j
    {
      AbsorbChunk(buf, pending, block, done', data[j..j + 64]);
      NextChunk(done', data, j, done + data[i..]);
      done' := done' + data[j..j + 64];
      j := j + 64;
      count := count + 1;
    }
  }

  /** *p++ = 0x80 in md5Final: the marker byte follows the first count bytes. */
  method MarkEnd(pending: array<byte>, count: nat, ghost tail: seq<byte>)
    requires count < pending.Length && pending[..count] == tail
    modifies pending
    ensures pending[..count + 1] == tail + [0x80]
    ensures forall j :: count + 1 <= j < pending.Length ==> pending[j] == old(pending[j])
  {
    pending[count] := 0x80;
  }

  /** memset(p, 0, n) in md5Final: n zero bytes follow the first p bytes. */
  method ZeroFrom(pending: array<byte>, p: nat, n: nat, ghost head: seq<byte>)
    requires p + n <= pending.Length && pending[..p] == head
    modifies pending
    ensures pending[..p + n] == head + Zeros(n)
    ensures p + n == pending.Length ==> pending[..] == head + Zeros(n)
    ensures forall j :: p + n <= j < pending.Length ==> pending[j] == old(pending[j])
  {
    CopyInto(pending, p, Zeros(n));
    assert pending[..p + n] == head + Zeros(n);
    assert forall j :: p + n <= j < pending.Length ==> pending[j] == old(pending[..])[j];
  }

  /**
   * byteSwap(in, 14) and the two length words of md5Final: the word view of
   * the last block is the first 56 bytes followed by the bit count.
   */
  method LoadFinal(pending: array<byte>, block: array<word>, ghost last: seq<byte>, n: nat)
    requires pending.Length == 64 && block.Length == 16 && pending[..56] == last
    modifies block
    ensures block[..] == Words(last + LengthBytes(n))
  {
    ByteSwap(pending, block, 14);
    var lengths := [LengthLo(n) as word, LengthHi(n) as word];
    block[14], block[15] := lengths[0], lengths[1];
    assert block[..] == Words(last) + lengths;
    LengthBlock(last, n);
  }

  /** memset(ctx, 0, sizeof(*ctx)): the chaining state and both views of the pending block become zero. */
  method Wipe(buf: array<word>, pending: array<byte>, block: array<word>)
    requires buf != block
    modifies buf, pending, block
    ensures buf[..] == ZeroWords(buf.Length) && pending[..] == Zeros(pending.Length) && block[..] == ZeroWords(block.Length)
  {
    forall j | 0 <= j < buf.Length {
      buf[j] := 0;
    }
    forall j | 0 <= j < block.Length {
      block[j] := 0;
    }
    CopyInto(pending, 0, Zeros(pending.Length));
    assert pending[..] == Zeros(pending.Length);
  }

  class Context {
    /** The chaining state: four words. */
    const buf: array<word>
    /** The byte view of the pending block `in`. */
    const pending: array<byte>
    /** The word view of the pending block `in`, as byteSwap leaves it. */
    const block: array<word>
    /** The number of message bytes absorbed so far. */
    var bytes: nat
    /** The message absorbed so far. */
    ghost var msg: seq<byte>

    /** The arrays have the sizes of md5Context's fields, and the two word arrays are distinct. */
    ghost predicate Shaped()
    {
      buf.Length == 4 && pending.Length == 64 && block.Length == 16 && buf != block
    }

    /**
     * The streaming invariant: bytes counts the message, buf is the fold of
     * the compression over the message's complete blocks, and the first
     * bytes % 64 bytes of the pending block are the message's tail.
     */
    ghost predicate Valid()
      reads this, buf, pending
    {
      Shaped() &&
      bytes == |msg| && bytes < 0x1_0000_0000_0000_0000 &&
      buf[..] == Absorbed(msg) &&
      pending[..bytes % 64] == Tail(msg)
    }

    /** After md5Final: every field of the context is zero. */
    ghost predicate Zeroed()
      reads this, buf, pending, block
    {
      bytes == 0 && buf[..] == ZeroWords(4) && pending[..] == Zeros(64) && block[..] == ZeroWords(16)
    }

    /** Storage for a context; md5Init gives it its initial state. */
    constructor ()
      ensures Shaped() && fresh(buf) && fresh(pending) && fresh(block)
    {
      buf := new word[4];
      pending := new byte[64];
      block := new word[16];
    }

    /** md5Init: buf gets the initial state, the byte count is zero; `in` is not touched. */
    method Init()
      requires Shaped()
      modifies this, buf
      ensures Valid() && msg == [] && bytes == 0 && buf[..] == InitState
    {
      var s := InitState;
      buf[0], buf[1], buf[2], buf[3] := s[0], s[1], s[2], s[3];
      assert buf[..] == InitState;
      bytes := 0;
      msg := [];
      assert Whole([]) == [];
    }

    /**
     * md5Update: absorbs data.  The count grows by |data|, and `blocks`
     * blocks are compressed: the pending tail completed by the first bytes
     * of data, then whole blocks of data.  When data does not complete the
     * pending block, buf is unchanged and data is copied just after the tail.
     */
    method Update(data: seq<byte>) returns (ghost blocks: nat)
      requires Valid() && bytes + |data| < 0x1_0000_0000_0000_0000
      modifies this, buf, pending, block
      ensures Valid() && msg == old(msg) + data && bytes == old(bytes) + |data|
      ensures blocks == (old(bytes) % 64 + |data|) / 64
      ensures |Whole(msg)| == |Whole(old(msg))| + 64 * blocks
      ensures blocks == 0 ==>
        (buf[..] == old(buf[..]) &&
         pending[..] == old(pending[..])[..old(bytes) % 64] + data + old(pending[..])[old(bytes) % 64 + |data|..])
    {
      ghost var m0 := msg;
      var t := Space(bytes);
      bytes := bytes + |data|;
      msg := m0 + data;
      if t > |data| {
        CopyInto(pending, 64 - t, data);
        ShortUpdate(m0, data);
        ModBlock(64 - t + |data|, 0, 64 - t + |data|);
        return 0;
      }

      // The first chunk completes the pending block.
      CopyInto(pending, 64 - t, data[..t]);
      ghost var first := Tail(m0) + data[..t];
      assert pending[..] == first;
      LoadBlock(pending, block);
      Absorb(buf, block, Whole(m0), first);
      ghost var done := Whole(m0) + first;
      FirstChunk(m0, data, t);
      ghost var more: nat;
      var i;
      i, done, more := AbsorbBlocks(buf, pending, block, done, data, t);
      blocks := 1 + more;

      // The remainder becomes the new tail.
      CopyInto(pending, 0, data[i..]);
      WholeSplit(msg, done, data[i..]);
      ModBlock(|m0| % 64 + |data|, blocks, |data| - i);
    }

    /**
     * md5Final: pads the pending block (one extra block when 56 or more bytes
     * are pending), appends the length words, compresses, and returns the
     * digest, the little-endian bytes of buf.  The context is zeroed.
     */
    method Final() returns (digest: seq<byte>)
      requires Valid()
      modifies this, buf, pending, block
      ensures digest == MD5(old(msg))
      ensures Zeroed()
    {
      ghost var m := msg;
      ghost var done, last := PadLast(buf, pending, block, bytes % 64, m);
      LoadFinal(pending, block, last, bytes);
      Absorb(buf, block, done, last + LengthBytes(|m|));
      digest := Bytes(buf[..]);

      // The whole context is cleared.
      Wipe(buf, pending, block);
      bytes := 0;
    }
  }

  /**
   * The padding steps of md5Final: the 0x80 byte goes after the count
   * pending bytes, then zeros; when fewer than 8 bytes remain for the length,
   * the block is zero-filled and compressed, and a fresh block of 56 zeros
   * follows.  Afterwards done holds the compressed blocks and the first 56
   * bytes of the pending block are last, so that the padded message is done,
   * then last, then the length.
   */
  method PadLast(buf: array<word>, pending: array<byte>, block: array<word>, count: nat, ghost m: seq<byte>)
      returns (ghost done: seq<byte>, ghost last: seq<byte>)
    requires buf.Length == 4 && pending.Length == 64 && block.Length == 16 && buf != block
    requires count == |m| % 64 && pending[..count] == Tail(m) && buf[..] == ProcessBlocks(InitState, Whole(m))
    modifies buf, pending, block
    ensures |done| % 64 == 0 && buf[..] == ProcessBlocks(InitState, done)
    ensures pending[..56] == last
    ensures done + (last + LengthBytes(|m|)) == Pad(m)
    ensures count < 56 ==> done == Whole(m)
    ensures count >= 56 ==> done == Whole(m) + (Tail(m) + [0x80] + Zeros(63 - count))
  {
    done := Whole(m);
    ghost var head := Tail(m) + [0x80];
    ghost var padded := 0;
    MarkEnd(pending, count, Tail(m));
    var p := count + 1;
    var zeros: int := 56 - 1 - count;
    assert -8 <= zeros <= 55;
    if zeros < 0 {
      // Padding forces an extra block.
      ZeroFrom(pending, p, zeros + 8, head);
      LoadBlock(pending, block);
      Absorb(buf, block, done, head + Zeros(zeros + 8));
      done := done + (head + Zeros(zeros + 8));
      padded := zeros + 8;
      p := 0;
      zeros := 56;
      head := [];
    }
    ZeroFrom(pending, p, zeros, head);
    last := head + Zeros(zeros);
    FinalBlocks(m, done, last, padded, zeros);
  }

  /**
   * The blocks md5Final compresses are the padded message: the complete
   * blocks, then either the tail, 0x80 and `padded` zeros as an extra block
   * followed by `zeros` zeros and the length, or the tail, 0x80, `zeros`
   * zeros and the length.
   */
  lemma FinalBlocks(m: seq<byte>, done: seq<byte>, last: seq<byte>, padded: int, zeros: int)
    requires |m| % 64 >= 56 ==>
      padded == 63 - |m| % 64 && done == Whole(m) + (Tail(m) + [0x80] + Zeros(padded)) &&
      zeros == 56 && last == [] + Zeros(zeros)
    requires |m| % 64 < 56 ==>
      done == Whole(m) && zeros == 55 - |m| % 64 && last == Tail(m) + [0x80] + Zeros(zeros)
    ensures done + (last + LengthBytes(|m|)) == Pad(m)
  {
    PadBlocks(m);
    if |m| % 64 >= 56 {
      assert last == Zeros(56);
    }
  }

  /** The complete blocks of m0, the block completed by the first t bytes of data, and the rest of data make up m0 + data. */
  lemma FirstChunk(m0: seq<byte>, data: seq<byte>, t: nat)
    requires t <= |data|
    ensures Whole(m0) + (Tail(m0) + data[..t]) + data[t..] == m0 + data
  {
    assert data == data[..t] + data[t..];
  }

  /** Moving the next 64 bytes of data from the rest to the processed part keeps the message. */
  lemma NextChunk(done: seq<byte>, data: seq<byte>, i: nat, m: seq<byte>)
    requires i + 64 <= |data| && done + data[i..] == m
    ensures (done + data[i..i + 64]) + data[i + 64..] == m
  {
    assert data[i..] == data[i..i + 64] + data[i + 64..];
  }

  /** A short update leaves the complete blocks alone and extends the tail. */
  lemma ShortUpdate(m: seq<byte>, d: seq<byte>)
    requires |m| % 64 + |d| < 64
    ensures Whole(m + d) == Whole(m) && Tail(m + d) == Tail(m) + d
  {
    ModBlock(|m + d|, |m| / 64, |m| % 64 + |d|);
  }

  /**
   * Chunking does not matter: update(a) followed by update(b) leaves the same
   * count, chaining state and pending bytes as the single update(a + b).
   */
  method SplitUpdate(a: seq<byte>, b: seq<byte>) returns (one: Context, two: Context)
    requires |a| + |b| < 0x1_0000_0000_0000_0000
    ensures one.Valid() && two.Valid() && one.msg == two.msg == a + b
    ensures one.bytes == two.bytes && one.buf[..] == two.buf[..]
    ensures one.pending[..one.bytes % 64] == two.pending[..two.bytes % 64]
  {
    one := Started(a);
    var _ := one.Update(b);
    two := Started(a + b);
  }

  /** A new context after md5Init and md5Update(data). */
  method Started(data: seq<byte>) returns (ctx: Context)
    requires |data| < 0x1_0000_0000_0000_0000
    ensures fresh(ctx) && fresh(ctx.buf) && fresh(ctx.pending) && fresh(ctx.block)
    ensures ctx.Valid() && ctx.msg == data
  {
    ctx := new Context();
    ctx.Init();
    var _ := ctx.Update(data);
  }

  /** md5: init, update with the whole buffer, final. */
  method Md5(data: seq<byte>) returns (digest: seq<byte>)
    requires |data| < 0x1_0000_0000_0000_0000
    ensures digest == MD5(data)
  {
    var ctx := new Context();
    ctx.Init();
    ghost var blocks := ctx.Update(data);
    assert ctx.msg == data;
    digest := ctx.Final();
  }
}
