/**
 * Little-endian packing of bytes into 32-bit words and back.
 *
 * MD5 reads its input as 32-bit words whose first byte is the least
 * significant one, and writes its digest the same way.  The C code gets this
 * by reinterpreting memory and calling byteSwap; here the packing is an
 * explicit function, so no memory layout or host byte order is modelled.
 */
module LittleEndian {

  type byte = bv8
  type word = bv32

  /** The word whose least significant byte is p[0] and most significant p[3]. */
  function LoadWord(p: seq<byte>): word
    requires |p| == 4
  {
    ((p[3] as word) << 24) | ((p[2] as word) << 16) | ((p[1] as word) << 8) | (p[0] as word)
  }

  /** The four bytes of w, least significant first. */
  function StoreWord(w: word): (p: seq<byte>)
    ensures |p| == 4
  {
    [(w & 0xff) as byte, ((w >> 8) & 0xff) as byte, ((w >> 16) & 0xff) as byte, ((w >> 24) & 0xff) as byte]
  }

  lemma LoadStore(w: word)
    ensures LoadWord(StoreWord(w)) == w
  {
  }

  lemma StoreLoad(p: seq<byte>)
    requires |p| == 4
    ensures StoreWord(LoadWord(p)) == p
  {
  }

  /** The byte sequence p read as |p| / 4 little-endian words. */
  function Words(p: seq<byte>): (ws: seq<word>)
    requires |p| % 4 == 0
    ensures |ws| == |p| / 4
  {
    seq(|p| / 4, i requires 0 <= i < |p| / 4 => LoadWord(p[4 * i .. 4 * i + 4]))
  }

  /** The words ws laid out as bytes, each word least significant byte first. */
  function Bytes(ws: seq<word>): (p: seq<byte>)
    ensures |p| == 4 * |ws|
  {
    if ws == [] then [] else StoreWord(ws[0]) + Bytes(ws[1..])
  }

  lemma {:induction false} BytesAt(ws: seq<word>, i: nat)
    requires i < |ws|
    ensures Bytes(ws)[4 * i .. 4 * i + 4] == StoreWord(ws[i])
  {
    if i > 0 {
      BytesAt(ws[1..], i - 1);
      assert Bytes(ws)[4 * i .. 4 * i + 4] == Bytes(ws[1..])[4 * (i - 1) .. 4 * (i - 1) + 4];
    }
  }

  /** Reading back the bytes of a word sequence gives the words again. */
  lemma WordsBytes(ws: seq<word>)
    ensures Words(Bytes(ws)) == ws
  {
    forall i | 0 <= i < |ws|
      ensures Words(Bytes(ws))[i] == ws[i]
    {
      BytesAt(ws, i);
      LoadStore(ws[i]);
    }
  }

  /** Laying out the words of a byte sequence gives the bytes again. */
  lemma {:induction false} BytesWords(p: seq<byte>)
    requires |p| % 4 == 0
    ensures Bytes(Words(p)) == p
  {
    if p != [] {
      StoreLoad(p[..4]);
      forall i | 0 <= i < |p| / 4 - 1
        ensures Words(p)[1..][i] == Words(p[4..])[i]
      {
        assert p[4 * (i + 1) .. 4 * (i + 1) + 4] == p[4..][4 * i .. 4 * i + 4];
      }
      assert Words(p)[1..] == Words(p[4..]);
      BytesWords(p[4..]);
      assert p == p[..4] + p[4..];
    }
  }

  /** Reading words distributes over concatenation at a word boundary. */
  lemma WordsAppend(p: seq<byte>, q: seq<byte>)
    requires |p| % 4 == 0 && |q| % 4 == 0
    ensures Words(p + q) == Words(p) + Words(q)
  {
    var l := Words(p + q);
    var r := Words(p) + Words(q);
    forall i | 0 <= i < |l|
      ensures l[i] == r[i]
    {
      if i < |p| / 4 {
        assert (p + q)[4 * i .. 4 * i + 4] == p[4 * i .. 4 * i + 4];
      } else {
        var j := i - |p| / 4;
        assert (p + q)[4 * i .. 4 * i + 4] == q[4 * j .. 4 * j + 4];
      }
    }
  }

  /** Two words laid out one after the other read back as those two words. */
  lemma WordsOfTwo(a: word, b: word)
    ensures Words(StoreWord(a) + StoreWord(b)) == [a, b]
  {
    assert Bytes([a, b]) == StoreWord(a) + StoreWord(b) by {
      assert [a, b][1..] == [b];
      assert Bytes([b]) == StoreWord(b) + Bytes([]);
    }
    WordsBytes([a, b]);
  }

  /**
   * byteSwap: the first `words` words become the little-endian reading of
   * their own four bytes; the words after them keep their old values.  The
   * byte view src and the word view dst of the same buffer are separate
   * arrays here.
   */
  method ByteSwap(src: array<byte>, dst: array<word>, words: nat)
    requires 4 * words <= src.Length && words <= dst.Length
    modifies dst
    ensures dst[..words] == Words(src[..4 * words])
    ensures dst[words..] == old(dst[words..])
  {
    var i := 0;
    while i < words
      invariant i <= words
      invariant forall j :: 0 <= j < i ==> dst[j] == LoadWord(src[4 * j .. 4 * j + 4])
      invariant forall j :: i <= j < dst.Length ==> dst[j] == old(dst[j])
    {
      dst[i] := LoadWord(src[4 * i .. 4 * i + 4]);
      i := i + 1;
    }
    forall j | 0 <= j < words
      ensures src[..4 * words][4 * j .. 4 * j + 4] == src[4 * j .. 4 * j + 4]
    {
    }
  }
}
