# MD5 message digest (src/md5.cpp) in Dafny

This project models the MD5 implementation in `src/md5.cpp` (Colin Plumb's
public-domain code) and proves it computes the MD5 message digest of
RFC 1321.

The repository's code has four parts, and each is modelled in the form the code takes:

- **Streaming context** (`context.dfy`, module `Md5Context`). `md5Init`,
  `md5Update` and `md5Final` are methods of the class `Context`. The class
  holds the four-word chaining state `buf`, the 64-byte pending block `in`
  and the byte count `bytes`. These are updated in place with the code's own
  `memcpy` copies, its `for (; len >= 64; len -= 64)` loop, and its padding
  writes through `p`. `md5` is the method `Md5`.
- **Compression** (`compress.dfy`, module `Compression`). The macros
  `F1`–`F4` and `MD5STEP` are functions on 32-bit words. `md5Transform` is
  the method `Transform`: it performs the 64 `MD5STEP` statements on local
  registers, then adds them into `buf`. It is proved equal to `Compress`, a
  table-driven definition of the 64 operations of RFC 1321 section 3.4.
- **Byte order** (`words.dfy`, module `LittleEndian`). `byteSwap` is the
  method `ByteSwap`: a loop that fills words from the little-endian reading
  of their four bytes. `Words` and `Bytes` are the matching pure functions.
- **Specification** (`rfc1321.dfy`, module `Rfc1321`). `MD5(m)` follows
  RFC 1321:
  1. pad the message (section 3.1);
  2. append the 64-bit bit count, low word first (section 3.2);
  3. fold the compression over the 64-byte blocks, starting from the
     constants of section 3.3;
  4. write the state out little-endian (section 3.5).

The main results:

- **Streaming invariant.** `Context.Valid()` holds after every call:
  - `bytes` is the length of everything absorbed so far (the ghost `msg`);
  - `buf` is the compression folded over the complete blocks of `msg`;
  - the first `bytes % 64` pending bytes are the tail of `msg`.
- **Final.** `Context.Final` returns `MD5(msg)` and leaves every field zero.
- **One-shot.** `Md5(data)` returns `MD5(data)`.
- **Chunking.** Splitting the input over several updates does not change
  the state (`SplitUpdate`), and the fold itself can be regrouped
  (`ProcessBlocksConcat`).

The comment above `md5Final` (src/md5.cpp:99) calls the 64-bit count
"MSB-first". The code stores the low-order word in `in[14]` and the
high-order word in `in[15]` (src/md5.cpp:126-127), which is the order
RFC 1321 section 3.2 requires. The model follows the code.

## Model

| member | source | states |
|---|---|---|
| Compression.F1 | src/md5.cpp:138 | The optimised round function of round 1, `z ^ (x & (y ^ z))`; F1IsF relates it to RFC 1321's F. |
| Compression.F2 | src/md5.cpp:139 | The round function of round 2, `F1(z, x, y)`; F2IsG relates it to RFC 1321's G. |
| Compression.F3 | src/md5.cpp:140 | The round function of round 3, `x ^ y ^ z`, RFC 1321's H. |
| Compression.F4 | src/md5.cpp:141 | The round function of round 4, y XOR (x OR NOT z), RFC 1321's I. |
| Compression.Rotl | src/md5.cpp:145 | The rotation `w << s` combined with `w >> (32 - s)` for 0 < s < 32. |
| Compression.Md5Step | src/md5.cpp:144-145 | MD5STEP: w plus f plus the message term, all modulo 2^32, rotated left by s, plus x. |
| Compression.F1IsF | src/md5.cpp:137-138 | The optimised `F1`, `z ^ (x & (y ^ z))`, equals the commented-out selection form (x AND y) OR (NOT x AND z), RFC 1321's F, for all words. |
| Compression.F2IsG | src/md5.cpp:139 | `F2(x, y, z) = F1(z, x, y)` equals RFC 1321's G, (x AND z) OR (y AND NOT z). |
| Compression.Shift | src/md5.cpp:161-227 | Every rotation amount of the 64 steps lies in 4..23, so `w >> (32 - s)` in MD5STEP is a well-defined shift. |
| Compression.MsgIndex | src/md5.cpp:161-227 | The message word that step i reads is one of `in[0..15]`. |
| Compression.RoundReadsEachWordOnce | src/md5.cpp:161-227 | Within each round of sixteen steps, word j of the block is read by exactly one step: step p reads j if and only if p is `Reader(g, j)`. |
| Compression.Round1Ops | src/md5.cpp:161-176 | The table entries (message word, rotation, constant) of steps 0–15 are the operands of the first sixteen MD5STEP statements. |
| Compression.Round2Ops | src/md5.cpp:178-193 | The same for steps 16–31. |
| Compression.Round3Ops | src/md5.cpp:195-210 | The same for steps 32–47. |
| Compression.Round4Ops | src/md5.cpp:212-227 | The same for steps 48–63. |
| Compression.Round1 | src/md5.cpp:156-176 | The sixteen F1 steps applied to buf's words give the registers after the first 16 operations of the specification. |
| Compression.Round2 | src/md5.cpp:178-193 | The sixteen F2 steps take the registers after 16 operations to those after 32. |
| Compression.Round3 | src/md5.cpp:195-210 | The sixteen F3 steps take the registers after 32 operations to those after 48. |
| Compression.Round4 | src/md5.cpp:212-227 | The sixteen F4 steps take the registers after 48 operations to those after all 64. |
| Compression.Compress | src/md5.cpp:152-233 | The reference compression: the 64 table-driven operations run from registers (buf[0], buf[1], buf[2], buf[3]) on block x, then each final register is added into the matching state word; Transform is proved equal to it. |
| Compression.AddInto | src/md5.cpp:229-232 | Each `buf[i]` becomes its old value plus the matching working register, modulo 2^32. |
| Compression.Transform | src/md5.cpp:152-233 | `md5Transform` leaves in `buf` the compression `Compress(old buf, in)` of RFC 1321 section 3.4; `in` is read only. |
| LittleEndian.LoadWord | src/md5.cpp:42 | The word `p[3] << 24`, `p[2] << 16`, `p[1] << 8` and `p[0]` combined: four bytes read least significant first. LoadStore and StoreLoad make it the inverse of StoreWord. |
| LittleEndian.Bytes | src/md5.cpp:130-131 | The words laid out as 4 bytes each, least significant byte first; WordsBytes and BytesWords make it the inverse of Words. |
| LittleEndian.LoadStore | src/md5.cpp:42 | Reading back the four little-endian bytes of a word gives the word. |
| LittleEndian.StoreLoad | src/md5.cpp:42 | Writing out the word read from four bytes gives the bytes. |
| LittleEndian.WordsBytes | src/md5.cpp:130-131 | Words read from the serialised words are the words. |
| LittleEndian.BytesWords | src/md5.cpp:37-44 | Bytes written from the words read from a byte sequence are that sequence. |
| LittleEndian.WordsAppend | src/md5.cpp:123 | Reading words distributes over concatenation at a word boundary. |
| LittleEndian.ByteSwap | src/md5.cpp:37-44 | Each of the first `words` words becomes the word whose bytes, least significant first, are its own four bytes p[0..3]; the words beyond them are untouched. |
| Rfc1321.InitState | src/md5.cpp:52-55 | The four initial chaining words 0x67452301, 0xefcdab89, 0x98badcfe, 0x10325476. |
| Rfc1321.InitStateBytes | src/md5.cpp:52-55 | Laid out low-order byte first, the initial words are the byte strings 01 23 45 67, 89 ab cd ef, fe dc ba 98 and 76 54 32 10 that section 3.3 of RFC 1321 lists. |
| Rfc1321.Pad | src/md5.cpp:98-128 | The reference padding: the message, 0x80, PadZeros zero bytes and the 8 length bytes; PadLayout and PadBlocks state its shape. |
| Rfc1321.PadZeros | src/md5.cpp:110-122 | The zero padding after 0x80 is fewer than 64 bytes and leaves the message exactly 8 bytes short of a block boundary. |
| Rfc1321.LengthLo | src/md5.cpp:126 | `(bytes << 3) & 0xFFFFFFFF` is a 32-bit value. |
| Rfc1321.LengthHi | src/md5.cpp:127 | `(bytes >> 29) & 0xFFFFFFFF` is a 32-bit value. |
| Rfc1321.LengthWords | src/md5.cpp:126-127 | `in[14] + 2^32 * in[15]` equals `(bytes * 8) mod 2^64`, with the low-order word first. |
| Rfc1321.PadLayout | src/md5.cpp:98-128 | The padded message is the message, one 0x80 byte, only zeros, then the 8 length bytes. It is a whole number of blocks: one more than the complete blocks when the tail is under 56 bytes, two more otherwise. |
| Rfc1321.PadBlocks | src/md5.cpp:110-124 | The padded message is the complete blocks followed by one final block (tail, 0x80, zeros, length) when the tail is under 56 bytes. Otherwise it is followed by an extra block (tail, 0x80, zeros to byte 64) and then 56 zeros and the length. |
| Rfc1321.WholeSplit | src/md5.cpp:93-94 | A message made of whole blocks and fewer than 64 more bytes has those as its complete blocks and tail. |
| Rfc1321.ProcessBlocksStep | src/md5.cpp:78-89 | Transforming one more block extends the fold over the blocks so far. |
| Rfc1321.ProcessBlocksConcat | src/md5.cpp:60-95 | The fold over a ++ b equals the fold over b started from the fold over a, so the blocks may be grouped arbitrarily. |
| Rfc1321.LengthBlock | src/md5.cpp:123-127 | A 56-byte prefix followed by the length bytes reads as its 14 words followed by the two length words. |
| Rfc1321.MD5 | src/md5.cpp:130-131 | The digest has 16 bytes; it is the little-endian serialisation of the state after the last block of the padded message. |
| Md5Context.CopyInto | src/md5.cpp:73 | `memcpy(dst + at, src, n)`: bytes at..at+n become src, and every other byte keeps its value. |
| Md5Context.Space | src/md5.cpp:65-66 | The free space `64 - (bytes & 0x3f)` lies in 1..64 and brings the count to the next block boundary, so the copy offset `64 - t` is `bytes % 64`. |
| Md5Context.LoadBlock | src/md5.cpp:79 | `byteSwap(in, 16)` makes the word view of the pending block the little-endian reading of its 64 bytes. |
| Md5Context.Absorb | src/md5.cpp:80 | `md5Transform` on a block whose bytes are b extends the fold over the blocks done so far by b. |
| Md5Context.AbsorbChunk | src/md5.cpp:87-89 | Copying, byte-swapping and transforming one 64-byte chunk extends the fold by that chunk. |
| Md5Context.AbsorbBlocks | src/md5.cpp:84-91 | The loop transforms whole 64-byte chunks while 64 or more bytes remain. It stops with fewer than 64 bytes left, after `count` iterations covering exactly 64 * count bytes, and `buf` is the fold over everything processed. |
| Md5Context.MarkEnd | src/md5.cpp:105-108 | The 0x80 byte is placed right after the `count` pending bytes, which always fits, and every byte after it keeps its value. |
| Md5Context.ZeroFrom | src/md5.cpp:116 | `memset(p, 0, n)`: n zeros follow the first p bytes, a fill that reaches byte 64 leaves the block as those bytes and zeros, and every byte after the fill keeps its value. |
| Md5Context.LoadFinal | src/md5.cpp:123-127 | `byteSwap(in, 14)` and the two length words make the last block the 56 padded bytes followed by the bit count. |
| Md5Context.Wipe | src/md5.cpp:132 | `memset(ctx, 0, sizeof(*ctx))`: the state, the byte view and the word view of `in` are all zero. |
| Md5Context.Context.constructor | src/md5.cpp:27 | Storage for a context with the field sizes of `md5Context`. |
| Md5Context.Context.Init | src/md5.cpp:50-57 | `buf` becomes 0x67452301, 0xefcdab89, 0x98badcfe, 0x10325476 and `bytes` 0, establishing the streaming invariant for the empty message. |
| Md5Context.Context.Update | src/md5.cpp:63-95 | Keeps the streaming invariant and appends data to the message; `bytes` grows by exactly `len`. Exactly `(old bytes % 64 + len) / 64` blocks are transformed, and the complete blocks of the message grow by exactly that many. When data does not complete the pending block, `buf` is unchanged and data lands at offset `old bytes % 64` with nothing else in `in` changed. |
| Md5Context.PadLast | src/md5.cpp:103-122 | The pad bytes of md5Final (the adjusted count `56 - 1 - count` lies in -8..55), with no extra block when under 56 bytes are pending. Otherwise the extra transformed block is the tail, 0x80 and zeros to byte 64. The first 56 bytes of the last block then complete the padded message when followed by the length. |
| Md5Context.FinalBlocks | src/md5.cpp:110-122 | The blocks written by either branch of the padding, followed by the length, are exactly the padded message of RFC 1321. |
| Md5Context.ShortUpdate | src/md5.cpp:71-75 | An update that does not complete the pending block leaves the complete blocks alone and extends the tail by the data. |
| Md5Context.FirstChunk | src/md5.cpp:77-82 | The complete blocks, the block completed by the first t bytes, and the rest of data make up the new message. |
| Md5Context.NextChunk | src/md5.cpp:85-91 | Each loop iteration moves 64 bytes from the rest of data to the processed part without changing the message. |
| Md5Context.Context.Final | src/md5.cpp:101-133 | The digest is `MD5` of all bytes absorbed, and afterwards every field of the context is zero. |
| Md5Context.Started | src/md5.cpp:29-30 | A fresh context after `md5Init` and `md5Update(data)` satisfies the streaming invariant for data. |
| Md5Context.SplitUpdate | src/md5.cpp:59-95 | update(a) followed by update(b) leaves the same count, chaining state and pending bytes as update(a ++ b). |
| Md5Context.Md5 | src/md5.cpp:25-32 | `md5` (init, update, final) returns the MD5 digest of its input. |

## Left out

- Host byte order and pointer punning: `in` is one `uint32_t[16]` buffer that the code reads both as bytes and as words. The model has two arrays, the byte view `pending` and the word view `block`. `LoadBlock`, `LoadFinal` and `ByteSwap` fill the word view from the byte view by the little-endian reading. The model does not capture that the two views alias in memory, or that `byteSwap` is the identity on a little-endian host.
- `byteSwap(ctx->buf, 4)` and `memcpy(digest, ctx->buf, 16)` (src/md5.cpp:130-131) are modelled together as the little-endian serialisation `Bytes(buf)`; `buf` is not rewritten in place before it is wiped.
- Md5Context.Context.Update: requires the total count to stay below 2^64: `bytes` is a natural number kept below 2^64, not a wrapping 64-bit counter, so input beyond 2^64 bytes in total is not modelled. The declared types live in `md5.h`, which is not part of this model; the masks in `md5Final` imply a 64-bit count.
- Md5Context.Context.Update: its ghost out-parameter `blocks` counts the transforms for the contract; the C function returns nothing.
- Rfc1321.LengthLo: and Rfc1321.LengthHi state the code's `(bytes << 3) & 0xFFFFFFFF` and `(bytes >> 29) & 0xFFFFFFFF` as integer arithmetic, `(bytes * 8) mod 2^32` and `(bytes / 2^29) mod 2^32`; that these equal the shift-and-mask on a 64-bit word is not proved, since the verifier's conversion between 64-bit words and integers is too costly.
- Compression.T: the 64 additive constants are the literal values of the code and of RFC 1321 section 3.4; their derivation from the sine function (floating point) is not modelled.
- Misuse: calling `md5Update` after `md5Final`, or `md5Final` twice, is not covered; `Final` only guarantees that the context is all zero afterwards.
- The `register` keyword, performance and timing side channels are not modelled.
- Known-answer test vectors (for example the digest of the empty message) are not stated: evaluating 64 steps of 32-bit arithmetic in the verifier is not worth the cost.
- Hex rendering of the digest is not part of `src/md5.cpp` and is not modelled.
