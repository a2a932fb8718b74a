/**
 * The MD5 compression function of RFC 1321, section 3.4: sixty-four steps,
 * in four rounds of sixteen, that mix one sixteen-word block into the
 * four-word chaining state.
 *
 * The specification is table driven, as the standard is: the round
 * functions F, G, H and I, and the table of sixty-four operations
 * [abcd k s i] giving, for each step, the message word k, the rotation s and
 * the additive constant T[i].  The method Transform is the unrolled sequence
 * of MD5STEP statements of the C code, proved equal to it.
 */
module Compression {
  import opened LittleEndian

  // The four round functions, as the C macros write them.

  function F1(x: word, y: word, z: word): word { z ^ (x & (y ^ z)) }

  function F2(x: word, y: word, z: word): word { F1(z, x, y) }

  function F3(x: word, y: word, z: word): word { x ^ y ^ z }

  function F4(x: word, y: word, z: word): word { y ^ (x | !z) }

  /** The optimised F1 is the bitwise selection F(X,Y,Z) = XY v not(X) Z. */
  lemma F1IsF(x: word, y: word, z: word)
    ensures F1(x, y, z) == (x & y) | (!x & z)
  {
  }

  /** F2, written as F1 with its arguments rotated, is G(X,Y,Z) = XZ v Y not(Z). */
  lemma F2IsG(x: word, y: word, z: word)
    ensures F2(x, y, z) == (x & z) | (y & !z)
  {
  }

  /** Rotation of w left by s bits, as the shift pair of MD5STEP writes it. */
  function Rotl(w: word, s: nat): word
    requires 0 < s < 32
  {
    (w << s) | (w >> (32 - s))
  }

  /**
   * MD5STEP(f, w, x, y, z, data, s): w is advanced by the round function
   * value f and the message term m (message word plus additive constant),
   * rotated left by s, and x is added.  Every addition wraps modulo 2^32.
   */
  function Md5Step(f: word, w: word, x: word, m: word, s: nat): word
    requires 0 < s < 32
  {
    Rotl(w + (f + m), s) + x
  }

  /** The round function of round g, numbered from 0. */
  function RoundFn(g: nat, x: word, y: word, z: word): word
    requires g < 4
  {
    match g
    case 0 => F1(x, y, z)
    case 1 => F2(x, y, z)
    case 2 => F3(x, y, z)
    case _ => F4(x, y, z)
  }

  /** One operation [abcd k s i]: message word k, rotation s and constant T[i]. */
  datatype Op = Op(k: nat, s: nat, t: word)

  /**
   * Which message word step i reads: in round 1 word i, in round 2 word
   * 5i + 1, in round 3 word 3i + 5 and in round 4 word 7i, modulo 16.
   */
  function MsgIndex(i: nat): (k: nat)
    requires i < 64
    ensures k < 16
  {
    if i < 16 then i
    else if i < 32 then (5 * i + 1) % 16
    else if i < 48 then (3 * i + 5) % 16
    else (7 * i) % 16
  }

  /** The rotation of step i: each round has four, repeating with period 4. */
  function Shift(i: nat): (s: nat)
    requires i < 64
    ensures 4 <= s <= 23
  {
    var p := i % 4;
    if i < 16 then (if p == 0 then 7 else if p == 1 then 12 else if p == 2 then 17 else 22)
    else if i < 32 then (if p == 0 then 5 else if p == 1 then 9 else if p == 2 then 14 else 20)
    else if i < 48 then (if p == 0 then 4 else if p == 1 then 11 else if p == 2 then 16 else 23)
    else (if p == 0 then 6 else if p == 1 then 10 else if p == 2 then 15 else 21)
  }

  /**
   * The additive constants T[1..64] of section 3.4 (the integer part of
   * 2^32 times |sin(j)| for j = i + 1), looked up by halving the range.
   */
  function T(i: nat): word
    requires i < 64
  {
    if i < 32 then
      if i < 16 then
        if i < 8 then
          if i < 4 then
            if i < 2 then
              if i < 1 then
                0xd76aa478
              else
                0xe8c7b756
            else
              if i < 3 then
                0x242070db
              else
                0xc1bdceee
          else
            if i < 6 then
              if i < 5 then
                0xf57c0faf
              else
                0x4787c62a
            else
              if i < 7 then
                0xa8304613
              else
                0xfd469501
        else
          if i < 12 then
            if i < 10 then
              if i < 9 then
                0x698098d8
              else
                0x8b44f7af
            else
              if i < 11 then
                0xffff5bb1
              else
                0x895cd7be
          else
            if i < 14 then
              if i < 13 then
                0x6b901122
              else
                0xfd987193
            else
              if i < 15 then
                0xa679438e
              else
                0x49b40821
      else
        if i < 24 then
          if i < 20 then
            if i < 18 then
              if i < 17 then
                0xf61e2562
              else
                0xc040b340
            else
              if i < 19 then
                0x265e5a51
              else
                0xe9b6c7aa
          else
            if i < 22 then
              if i < 21 then
                0xd62f105d
              else
                0x02441453
            else
              if i < 23 then
                0xd8a1e681
              else
                0xe7d3fbc8
        else
          if i < 28 then
            if i < 26 then
              if i < 25 then
                0x21e1cde6
              else
                0xc33707d6
            else
              if i < 27 then
                0xf4d50d87
              else
                0x455a14ed
          else
            if i < 30 then
              if i < 29 then
                0xa9e3e905
              else
                0xfcefa3f8
            else
              if i < 31 then
                0x676f02d9
              else
                0x8d2a4c8a
    else
      if i < 48 then
        if i < 40 then
          if i < 36 then
            if i < 34 then
              if i < 33 then
                0xfffa3942
              else
                0x8771f681
            else
              if i < 35 then
                0x6d9d6122
              else
                0xfde5380c
          else
            if i < 38 then
              if i < 37 then
                0xa4beea44
              else
                0x4bdecfa9
            else
              if i < 39 then
                0xf6bb4b60
              else
                0xbebfbc70
        else
          if i < 44 then
            if i < 42 then
              if i < 41 then
                0x289b7ec6
              else
                0xeaa127fa
            else
              if i < 43 then
                0xd4ef3085
              else
                0x04881d05
          else
            if i < 46 then
              if i < 45 then
                0xd9d4d039
              else
                0xe6db99e5
            else
              if i < 47 then
                0x1fa27cf8
              else
                0xc4ac5665
      else
        if i < 56 then
          if i < 52 then
            if i < 50 then
              if i < 49 then
                0xf4292244
              else
                0x432aff97
            else
              if i < 51 then
                0xab9423a7
              else
                0xfc93a039
          else
            if i < 54 then
              if i < 53 then
                0x655b59c3
              else
                0x8f0ccc92
            else
              if i < 55 then
                0xffeff47d
              else
                0x85845dd1
        else
          if i < 60 then
            if i < 58 then
              if i < 57 then
                0x6fa87e4f
              else
                0xfe2ce6e0
            else
              if i < 59 then
                0xa3014314
              else
                0x4e0811a1
          else
            if i < 62 then
              if i < 61 then
                0xf7537e82
              else
                0xbd3af235
            else
              if i < 63 then
                0x2ad7d2bb
              else
                0xeb86d391
  }

  /** Operation i of section 3.4, numbered from 0. */
  function Sched(i: nat): Op
    requires i < 64
  {
    Op(MsgIndex(i), Shift(i), T(i))
  }

  /** The step of round g, counted within the round, that reads message word j. */
  function Reader(g: nat, j: nat): (p: nat)
    requires g < 4 && j < 16
    ensures p < 16
  {
    if g == 0 then j
    else if g == 1 then (13 * j + 3) % 16
    else if g == 2 then (11 * j + 9) % 16
    else (7 * j) % 16
  }

  /** a % 16 is the remainder r of any decomposition a == 16 * q + r. */
  lemma ModOf(a: int, q: int, r: int)
    requires a == 16 * q + r && 0 <= r < 16
    ensures a % 16 == r
  {
  }

  /** Within round g, MsgIndex and Reader are inverse to each other on 0 .. 15. */
  lemma Inverses(g: nat, p: nat)
    requires g < 4 && p < 16
    ensures Reader(g, MsgIndex(16 * g + p)) == p && MsgIndex(16 * g + Reader(g, p)) == p
  {
    if g == 1 {
      var x, y := 5 * (16 + p) + 1, 13 * p + 3;
      ModOf(13 * (x % 16) + 3, 66 + 4 * p - 13 * (x / 16), p);
      ModOf(5 * (16 + y % 16) + 1, 6 + 4 * p - 5 * (y / 16), p);
    } else if g == 2 {
      var x, y := 3 * (32 + p) + 5, 11 * p + 9;
      ModOf(11 * (x % 16) + 9, 70 + 2 * p - 11 * (x / 16), p);
      ModOf(3 * (32 + y % 16) + 5, 8 + 2 * p - 3 * (y / 16), p);
    } else if g == 3 {
      var x, y := 7 * (48 + p), 7 * p;
      ModOf(7 * (x % 16), 147 + 3 * p - 7 * (x / 16), p);
      ModOf(7 * (48 + y % 16), 21 + 3 * p - 7 * (y / 16), p);
    }
  }

  /**
   * Each round reads each of the sixteen message words exactly once: step
   * Reader(g, j) of round g reads word j, and it is the only step that does.
   */
  lemma RoundReadsEachWordOnce(g: nat, p: nat, j: nat)
    requires g < 4 && p < 16 && j < 16
    ensures MsgIndex(16 * g + p) == j <==> p == Reader(g, j)
  {
    Inverses(g, p);
    Inverses(g, j);
  }

  /** The four working registers, in the roles (a, b, c, d) of the next step. */
  datatype Regs = Regs(a: word, b: word, c: word, d: word)

  /**
   * Operation [abcd k s i] in round g: the register in role a is updated,
   * then the roles rotate, so that the old d plays a, the new value b, the
   * old b c and the old c d.
   */
  function StepWith(g: nat, r: Regs, x: seq<word>, k: nat, s: nat, t: word): Regs
    requires g < 4 && |x| == 16 && k < 16 && 0 < s < 32
  {
    Regs(r.d, Md5Step(RoundFn(g, r.b, r.c, r.d), r.a, r.b, x[k] + t, s), r.b, r.c)
  }

  /**
   * The registers after the first n steps on block x.  Rounds and Step also
   * decrease in x, so that the verifier does not unfold the steps on its own
   * when it knows n as a constant.
   */
  function Rounds(n: nat, r: Regs, x: seq<word>): Regs
    requires n <= 64 && |x| == 16
    decreases n, x, 1
  {
    if n == 0 then r else Step(n - 1, r, x)
  }

  /** The registers after step i, operation Sched(i) of round i / 16, on block x. */
  function Step(i: nat, r: Regs, x: seq<word>): Regs
    requires i < 64 && |x| == 16
    decreases i, x, 2
  {
    var op := Sched(i);
    StepWith(i / 16, Rounds(i, r, x), x, op.k, op.s, op.t)
  }

  /** The new chaining state: each word of h plus the matching final register of q. */
  function Finish(h: seq<word>, q: Regs): (r: seq<word>)
    requires |h| == 4
    ensures |r| == 4 && r[0] == h[0] + q.a && r[1] == h[1] + q.b && r[2] == h[2] + q.c && r[3] == h[3] + q.d
  {
    [h[0] + q.a, h[1] + q.b, h[2] + q.c, h[3] + q.d]
  }

  /** The compression of block x into chaining state h: four rounds of one step per block word, 64 steps. */
  function Compress(h: seq<word>, x: seq<word>): (r: seq<word>)
    requires |h| == 4 && |x| == 16
    ensures |r| == 4
  {
    Finish(h, Rounds(4 * |x|, Regs(h[0], h[1], h[2], h[3]), x))
  }

  /** Step n of the specification is the operation Sched(n) of round g = n / 16. */
  lemma Unfold(n: nat, g: nat, q: Regs, r: Regs, x: seq<word>, k: nat, s: nat, t: word)
    requires n < 64 && g == n / 16 && |x| == 16 && Rounds(n, q, x) == r && Sched(n) == Op(k, s, t)
    ensures Rounds(n + 1, q, x) == StepWith(g, r, x, k, s, t)
  {
  }

  /** A step of round g, given the value f of its round function. */
  lemma StepIs(g: nat, r: Regs, x: seq<word>, k: nat, s: nat, t: word, f: word)
    requires g < 4 && |x| == 16 && k < 16 && 0 < s < 32
    requires f == RoundFn(g, r.b, r.c, r.d)
    ensures StepWith(g, r, x, k, s, t) == Regs(r.d, Md5Step(f, r.a, r.b, x[k] + t, s), r.b, r.c)
  {
  }

  /** The operations of round 1, as the table of section 3.4 lists them. */
  lemma Round1Ops()
    ensures Sched(0) == Op(0, 7, 0xd76aa478)
    ensures Sched(1) == Op(1, 12, 0xe8c7b756)
    ensures Sched(2) == Op(2, 17, 0x242070db)
    ensures Sched(3) == Op(3, 22, 0xc1bdceee)
    ensures Sched(4) == Op(4, 7, 0xf57c0faf)
    ensures Sched(5) == Op(5, 12, 0x4787c62a)
    ensures Sched(6) == Op(6, 17, 0xa8304613)
    ensures Sched(7) == Op(7, 22, 0xfd469501)
    ensures Sched(8) == Op(8, 7, 0x698098d8)
    ensures Sched(9) == Op(9, 12, 0x8b44f7af)
    ensures Sched(10) == Op(10, 17, 0xffff5bb1)
    ensures Sched(11) == Op(11, 22, 0x895cd7be)
    ensures Sched(12) == Op(12, 7, 0x6b901122)
    ensures Sched(13) == Op(13, 12, 0xfd987193)
    ensures Sched(14) == Op(14, 17, 0xa679438e)
    ensures Sched(15) == Op(15, 22, 0x49b40821)
  {
  }

  /** The operations of round 2, as the table of section 3.4 lists them. */
  lemma Round2Ops()
    ensures Sched(16) == Op(1, 5, 0xf61e2562)
    ensures Sched(17) == Op(6, 9, 0xc040b340)
    ensures Sched(18) == Op(11, 14, 0x265e5a51)
    ensures Sched(19) == Op(0, 20, 0xe9b6c7aa)
    ensures Sched(20) == Op(5, 5, 0xd62f105d)
    ensures Sched(21) == Op(10, 9, 0x02441453)
    ensures Sched(22) == Op(15, 14, 0xd8a1e681)
    ensures Sched(23) == Op(4, 20, 0xe7d3fbc8)
    ensures Sched(24) == Op(9, 5, 0x21e1cde6)
    ensures Sched(25) == Op(14, 9, 0xc33707d6)
    ensures Sched(26) == Op(3, 14, 0xf4d50d87)
    ensures Sched(27) == Op(8, 20, 0x455a14ed)
    ensures Sched(28) == Op(13, 5, 0xa9e3e905)
    ensures Sched(29) == Op(2, 9, 0xfcefa3f8)
    ensures Sched(30) == Op(7, 14, 0x676f02d9)
    ensures Sched(31) == Op(12, 20, 0x8d2a4c8a)
  {
  }

  /** The operations of round 3, as the table of section 3.4 lists them. */
  lemma Round3Ops()
    ensures Sched(32) == Op(5, 4, 0xfffa3942)
    ensures Sched(33) == Op(8, 11, 0x8771f681)
    ensures Sched(34) == Op(11, 16, 0x6d9d6122)
    ensures Sched(35) == Op(14, 23, 0xfde5380c)
    ensures Sched(36) == Op(1, 4, 0xa4beea44)
    ensures Sched(37) == Op(4, 11, 0x4bdecfa9)
    ensures Sched(38) == Op(7, 16, 0xf6bb4b60)
    ensures Sched(39) == Op(10, 23, 0xbebfbc70)
    ensures Sched(40) == Op(13, 4, 0x289b7ec6)
    ensures Sched(41) == Op(0, 11, 0xeaa127fa)
    ensures Sched(42) == Op(3, 16, 0xd4ef3085)
    ensures Sched(43) == Op(6, 23, 0x04881d05)
    ensures Sched(44) == Op(9, 4, 0xd9d4d039)
    ensures Sched(45) == Op(12, 11, 0xe6db99e5)
    ensures Sched(46) == Op(15, 16, 0x1fa27cf8)
    ensures Sched(47) == Op(2, 23, 0xc4ac5665)
  {
  }

  /** The operations of round 4, as the table of section 3.4 lists them. */
  lemma Round4Ops()
    ensures Sched(48) == Op(0, 6, 0xf4292244)
    ensures Sched(49) == Op(7, 10, 0x432aff97)
    ensures Sched(50) == Op(14, 15, 0xab9423a7)
    ensures Sched(51) == Op(5, 21, 0xfc93a039)
    ensures Sched(52) == Op(12, 6, 0x655b59c3)
    ensures Sched(53) == Op(3, 10, 0x8f0ccc92)
    ensures Sched(54) == Op(10, 15, 0xffeff47d)
    ensures Sched(55) == Op(1, 21, 0x85845dd1)
    ensures Sched(56) == Op(8, 6, 0x6fa87e4f)
    ensures Sched(57) == Op(15, 10, 0xfe2ce6e0)
    ensures Sched(58) == Op(6, 15, 0xa3014314)
    ensures Sched(59) == Op(13, 21, 0x4e0811a1)
    ensures Sched(60) == Op(4, 6, 0xf7537e82)
    ensures Sched(61) == Op(11, 10, 0xbd3af235)
    ensures Sched(62) == Op(2, 15, 0x2ad7d2bb)
    ensures Sched(63) == Op(9, 21, 0xeb86d391)
  {
  }

  // Step i of the specification is the i-th MD5STEP statement of md5Transform.
  // Each step has a lemma of its own, proved in a context that holds only that
  // step's table entry; stating all sixteen steps of a round inside its Round
  // method instead makes that method too expensive for the verifier.

  lemma Step0(q: Regs, r: Regs, x: seq<word>)
    requires |x| == 16 && Rounds(0, q, x) == r
    ensures Rounds(1, q, x) == Regs(r.d, Md5Step(F1(r.b, r.c, r.d), r.a, r.b, x[0] + 0xd76aa478, 7), r.b, r.c)
  {
    Round1Ops();
    Unfold(0, 0, q, r, x, 0, 7, 0xd76aa478);
    StepIs(0, r, x, 0, 7, 0xd76aa478, F1(r.b, r.c, r.d));
  }

  lemma Step1(q: Regs, r: Regs, x: seq<word>)
    requires |x| == 16 && Rounds(1, q, x) == r
    ensures Rounds(2, q, x) == Regs(r.d, Md5Step(F1(r.b, r.c, r.d), r.a, r.b, x[1] + 0xe8c7b756, 12), r.b, r.c)
  {
    Round1Ops();
    Unfold(1, 0, q, r, x, 1, 12, 0xe8c7b756);
    StepIs(0, r, x, 1, 12, 0xe8c7b756, F1(r.b, r.c, r.d));
  }

  lemma Step2(q: Regs, r: Regs, x: seq<word>)
    requires |x| == 16 && Rounds(2, q, x) == r
    ensures Rounds(3, q, x) == Regs(r.d, Md5Step(F1(r.b, r.c, r.d), r.a, r.b, x[2] + 0x242070db, 17), r.b, r.c)
  {
    Round1Ops();
    Unfold(2, 0, q, r, x, 2, 17, 0x242070db);
    StepIs(0, r, x, 2, 17, 0x242070db, F1(r.b, r.c, r.d));
  }

  lemma Step3(q: Regs, r: Regs, x: seq<word>)
    requires |x| == 16 && Rounds(3, q, x) == r
    ensures Rounds(4, q, x) == Regs(r.d, Md5Step(F1(r.b, r.c, r.d), r.a, r.b, x[3] + 0xc1bdceee, 22), r.b, r.c)
  {
    Round1Ops();
    Unfold(3, 0, q, r, x, 3, 22, 0xc1bdceee);
    StepIs(0, r, x, 3, 22, 0xc1bdceee, F1(r.b, r.c, r.d));
  }

  lemma Step4(q: Regs, r: Regs, x: seq<word>)
    requires |x| == 16 && Rounds(4, q, x) == r
    ensures Rounds(5, q, x) == Regs(r.d, Md5Step(F1(r.b, r.c, r.d), r.a, r.b, x[4] + 0xf57c0faf, 7), r.b, r.c)
  {
    Round1Ops();
    Unfold(4, 0, q, r, x, 4, 7, 0xf57c0faf);
    StepIs(0, r, x, 4, 7, 0xf57c0faf, F1(r.b, r.c, r.d));
  }

  lemma Step5(q: Regs, r: Regs, x: seq<word>)
    requires |x| == 16 && Rounds(5, q, x) == r
    ensures Rounds(6, q, x) == Regs(r.d, Md5Step(F1(r.b, r.c, r.d), r.a, r.b, x[5] + 0x4787c62a, 12), r.b, r.c)
  {
    Round1Ops();
    Unfold(5, 0, q, r, x, 5, 12, 0x4787c62a);
    StepIs(0, r, x, 5, 12, 0x4787c62a, F1(r.b, r.c, r.d));
  }

  lemma Step6(q: Regs, r: Regs, x: seq<word>)
    requires |x| == 16 && Rounds(6, q, x) == r
    ensures Rounds(7, q, x) == Regs(r.d, Md5Step(F1(r.b, r.c, r.d), r.a, r.b, x[6] + 0xa8304613, 17), r.b, r.c)
  {
    Round1Ops();
    Unfold(6, 0, q, r, x, 6, 17, 0xa8304613);
    StepIs(0, r, x, 6, 17, 0xa8304613, F1(r.b, r.c, r.d));
  }

  lemma Step7(q: Regs, r: Regs, x: seq<word>)
    requires |x| == 16 && Rounds(7, q, x) == r
    ensures Rounds(8, q, x) == Regs(r.d, Md5Step(F1(r.b, r.c, r.d), r.a, r.b, x[7] + 0xfd469501, 22), r.b, r.c)
  {
    Round1Ops();
    Unfold(7, 0, q, r, x, 7, 22, 0xfd469501);
    StepIs(0, r, x, 7, 22, 0xfd469501, F1(r.b, r.c, r.d));
  }

  lemma Step8(q: Regs, r: Regs, x: seq<word>)
    requires |x| == 16 && Rounds(8, q, x) == r
    ensures Rounds(9, q, x) == Regs(r.d, Md5Step(F1(r.b, r.c, r.d), r.a, r.b, x[8] + 0x698098d8, 7), r.b, r.c)
  {
    Round1Ops();
    Unfold(8, 0, q, r, x, 8, 7, 0x698098d8);
    StepIs(0, r, x, 8, 7, 0x698098d8, F1(r.b, r.c, r.d));
  }

  lemma Step9(q: Regs, r: Regs, x: seq<word>)
    requires |x| == 16 && Rounds(9, q, x) == r
    ensures Rounds(10, q, x) == Regs(r.d, Md5Step(F1(r.b, r.c, r.d), r.a, r.b, x[9] + 0x8b44f7af, 12), r.b, r.c)
  {
    Round1Ops();
    Unfold(9, 0, q, r, x, 9, 12, 0x8b44f7af);
    StepIs(0, r, x, 9, 12, 0x8b44f7af, F1(r.b, r.c, r.d));
  }

  lemma Step10(q: Regs, r: Regs, x: seq<word>)
    requires |x| == 16 && Rounds(10, q, x) == r
    ensures Rounds(11, q, x) == Regs(r.d, Md5Step(F1(r.b, r.c, r.d), r.a, r.b, x[10] + 0xffff5bb1, 17), r.b, r.c)
  {
    Round1Ops();
    Unfold(10, 0, q, r, x, 10, 17, 0xffff5bb1);
    StepIs(0, r, x, 10, 17, 0xffff5bb1, F1(r.b, r.c, r.d));
  }

  lemma Step11(q: Regs, r: Regs, x: seq<word>)
    requires |x| == 16 && Rounds(11, q, x) == r
    ensures Rounds(12, q, x) == Regs(r.d, Md5Step(F1(r.b, r.c, r.d), r.a, r.b, x[11] + 0x895cd7be, 22), r.b, r.c)
  {
    Round1Ops();
    Unfold(11, 0, q, r, x, 11, 22, 0x895cd7be);
    StepIs(0, r, x, 11, 22, 0x895cd7be, F1(r.b, r.c, r.d));
  }

  lemma Step12(q: Regs, r: Regs, x: seq<word>)
    requires |x| == 16 && Rounds(12, q, x) == r
    ensures Rounds(13, q, x) == Regs(r.d, Md5Step(F1(r.b, r.c, r.d), r.a, r.b, x[12] + 0x6b901122, 7), r.b, r.c)
  {
    Round1Ops();
    Unfold(12, 0, q, r, x, 12, 7, 0x6b901122);
    StepIs(0, r, x, 12, 7, 0x6b901122, F1(r.b, r.c, r.d));
  }

  lemma Step13(q: Regs, r: Regs, x: seq<word>)
    requires |x| == 16 && Rounds(13, q, x) == r
    ensures Rounds(14, q, x) == Regs(r.d, Md5Step(F1(r.b, r.c, r.d), r.a, r.b, x[13] + 0xfd987193, 12), r.b, r.c)
  {
    Round1Ops();
    Unfold(13, 0, q, r, x, 13, 12, 0xfd987193);
    StepIs(0, r, x, 13, 12, 0xfd987193, F1(r.b, r.c, r.d));
  }

  lemma Step14(q: Regs, r: Regs, x: seq<word>)
    requires |x| == 16 && Rounds(14, q, x) == r
    ensures Rounds(15, q, x) == Regs(r.d, Md5Step(F1(r.b, r.c, r.d), r.a, r.b, x[14] + 0xa679438e, 17), r.b, r.c)
  {
    Round1Ops();
    Unfold(14, 0, q, r, x, 14, 17, 0xa679438e);
    StepIs(0, r, x, 14, 17, 0xa679438e, F1(r.b, r.c, r.d));
  }

  lemma Step15(q: Regs, r: Regs, x: seq<word>)
    requires |x| == 16 && Rounds(15, q, x) == r
    ensures Rounds(16, q, x) == Regs(r.d, Md5Step(F1(r.b, r.c, r.d), r.a, r.b, x[15] + 0x49b40821, 22), r.b, r.c)
  {
    Round1Ops();
    Unfold(15, 0, q, r, x, 15, 22, 0x49b40821);
    StepIs(0, r, x, 15, 22, 0x49b40821, F1(r.b, r.c, r.d));
  }

  lemma Step16(q: Regs, r: Regs, x: seq<word>)
    requires |x| == 16 && Rounds(16, q, x) == r
    ensures Rounds(17, q, x) == Regs(r.d, Md5Step(F2(r.b, r.c, r.d), r.a, r.b, x[1] + 0xf61e2562, 5), r.b, r.c)
  {
    Round2Ops();
    Unfold(16, 1, q, r, x, 1, 5, 0xf61e2562);
    StepIs(1, r, x, 1, 5, 0xf61e2562, F2(r.b, r.c, r.d));
  }

  lemma Step17(q: Regs, r: Regs, x: seq<word>)
    requires |x| == 16 && Rounds(17, q, x) == r
    ensures Rounds(18, q, x) == Regs(r.d, Md5Step(F2(r.b, r.c, r.d), r.a, r.b, x[6] + 0xc040b340, 9), r.b, r.c)
  {
    Round2Ops();
    Unfold(17, 1, q, r, x, 6, 9, 0xc040b340);
    StepIs(1, r, x, 6, 9, 0xc040b340, F2(r.b, r.c, r.d));
  }

  lemma Step18(q: Regs, r: Regs, x: seq<word>)
    requires |x| == 16 && Rounds(18, q, x) == r
    ensures Rounds(19, q, x) == Regs(r.d, Md5Step(F2(r.b, r.c, r.d), r.a, r.b, x[11] + 0x265e5a51, 14), r.b, r.c)
  {
    Round2Ops();
    Unfold(18, 1, q, r, x, 11, 14, 0x265e5a51);
    StepIs(1, r, x, 11, 14, 0x265e5a51, F2(r.b, r.c, r.d));
  }

  lemma Step19(q: Regs, r: Regs, x: seq<word>)
    requires |x| == 16 && Rounds(19, q, x) == r
    ensures Rounds(20, q, x) == Regs(r.d, Md5Step(F2(r.b, r.c, r.d), r.a, r.b, x[0] + 0xe9b6c7aa, 20), r.b, r.c)
  {
    Round2Ops();
    Unfold(19, 1, q, r, x, 0, 20, 0xe9b6c7aa);
    StepIs(1, r, x, 0, 20, 0xe9b6c7aa, F2(r.b, r.c, r.d));
  }

  lemma Step20(q: Regs, r: Regs, x: seq<word>)
    requires |x| == 16 && Rounds(20, q, x) == r
    ensures Rounds(21, q, x) == Regs(r.d, Md5Step(F2(r.b, r.c, r.d), r.a, r.b, x[5] + 0xd62f105d, 5), r.b, r.c)
  {
    Round2Ops();
    Unfold(20, 1, q, r, x, 5, 5, 0xd62f105d);
    StepIs(1, r, x, 5, 5, 0xd62f105d, F2(r.b, r.c, r.d));
  }

  lemma Step21(q: Regs, r: Regs, x: seq<word>)
    requires |x| == 16 && Rounds(21, q, x) == r
    ensures Rounds(22, q, x) == Regs(r.d, Md5Step(F2(r.b, r.c, r.d), r.a, r.b, x[10] + 0x02441453, 9), r.b, r.c)
  {
    Round2Ops();
    Unfold(21, 1, q, r, x, 10, 9, 0x02441453);
    StepIs(1, r, x, 10, 9, 0x02441453, F2(r.b, r.c, r.d));
  }

  lemma Step22(q: Regs, r: Regs, x: seq<word>)
    requires |x| == 16 && Rounds(22, q, x) == r
    ensures Rounds(23, q, x) == Regs(r.d, Md5Step(F2(r.b, r.c, r.d), r.a, r.b, x[15] + 0xd8a1e681, 14), r.b, r.c)
  {
    Round2Ops();
    Unfold(22, 1, q, r, x, 15, 14, 0xd8a1e681);
    StepIs(1, r, x, 15, 14, 0xd8a1e681, F2(r.b, r.c, r.d));
  }

  lemma Step23(q: Regs, r: Regs, x: seq<word>)
    requires |x| == 16 && Rounds(23, q, x) == r
    ensures Rounds(24, q, x) == Regs(r.d, Md5Step(F2(r.b, r.c, r.d), r.a, r.b, x[4] + 0xe7d3fbc8, 20), r.b, r.c)
  {
    Round2Ops();
    Unfold(23, 1, q, r, x, 4, 20, 0xe7d3fbc8);
    StepIs(1, r, x, 4, 20, 0xe7d3fbc8, F2(r.b, r.c, r.d));
  }

  lemma Step24(q: Regs, r: Regs, x: seq<word>)
    requires |x| == 16 && Rounds(24, q, x) == r
    ensures Rounds(25, q, x) == Regs(r.d, Md5Step(F2(r.b, r.c, r.d), r.a, r.b, x[9] + 0x21e1cde6, 5), r.b, r.c)
  {
    Round2Ops();
    Unfold(24, 1, q, r, x, 9, 5, 0x21e1cde6);
    StepIs(1, r, x, 9, 5, 0x21e1cde6, F2(r.b, r.c, r.d));
  }

  lemma Step25(q: Regs, r: Regs, x: seq<word>)
    requires |x| == 16 && Rounds(25, q, x) == r
    ensures Rounds(26, q, x) == Regs(r.d, Md5Step(F2(r.b, r.c, r.d), r.a, r.b, x[14] + 0xc33707d6, 9), r.b, r.c)
  {
    Round2Ops();
    Unfold(25, 1, q, r, x, 14, 9, 0xc33707d6);
    StepIs(1, r, x, 14, 9, 0xc33707d6, F2(r.b, r.c, r.d));
  }

  lemma Step26(q: Regs, r: Regs, x: seq<word>)
    requires |x| == 16 && Rounds(26, q, x) == r
    ensures Rounds(27, q, x) == Regs(r.d, Md5Step(F2(r.b, r.c, r.d), r.a, r.b, x[3] + 0xf4d50d87, 14), r.b, r.c)
  {
    Round2Ops();
    Unfold(26, 1, q, r, x, 3, 14, 0xf4d50d87);
    StepIs(1, r, x, 3, 14, 0xf4d50d87, F2(r.b, r.c, r.d));
  }

  lemma Step27(q: Regs, r: Regs, x: seq<word>)
    requires |x| == 16 && Rounds(27, q, x) == r
    ensures Rounds(28, q, x) == Regs(r.d, Md5Step(F2(r.b, r.c, r.d), r.a, r.b, x[8] + 0x455a14ed, 20), r.b, r.c)
  {
    Round2Ops();
    Unfold(27, 1, q, r, x, 8, 20, 0x455a14ed);
    StepIs(1, r, x, 8, 20, 0x455a14ed, F2(r.b, r.c, r.d));
  }

  lemma Step28(q: Regs, r: Regs, x: seq<word>)
    requires |x| == 16 && Rounds(28, q, x) == r
    ensures Rounds(29, q, x) == Regs(r.d, Md5Step(F2(r.b, r.c, r.d), r.a, r.b, x[13] + 0xa9e3e905, 5), r.b, r.c)
  {
    Round2Ops();
    Unfold(28, 1, q, r, x, 13, 5, 0xa9e3e905);
    StepIs(1, r, x, 13, 5, 0xa9e3e905, F2(r.b, r.c, r.d));
  }

  lemma Step29(q: Regs, r: Regs, x: seq<word>)
    requires |x| == 16 && Rounds(29, q, x) == r
    ensures Rounds(30, q, x) == Regs(r.d, Md5Step(F2(r.b, r.c, r.d), r.a, r.b, x[2] + 0xfcefa3f8, 9), r.b, r.c)
  {
    Round2Ops();
    Unfold(29, 1, q, r, x, 2, 9, 0xfcefa3f8);
    StepIs(1, r, x, 2, 9, 0xfcefa3f8, F2(r.b, r.c, r.d));
  }

  lemma Step30(q: Regs, r: Regs, x: seq<word>)
    requires |x| == 16 && Rounds(30, q, x) == r
    ensures Rounds(31, q, x) == Regs(r.d, Md5Step(F2(r.b, r.c, r.d), r.a, r.b, x[7] + 0x676f02d9, 14), r.b, r.c)
  {
    Round2Ops();
    Unfold(30, 1, q, r, x, 7, 14, 0x676f02d9);
    StepIs(1, r, x, 7, 14, 0x676f02d9, F2(r.b, r.c, r.d));
  }

  lemma Step31(q: Regs, r: Regs, x: seq<word>)
    requires |x| == 16 && Rounds(31, q, x) == r
    ensures Rounds(32, q, x) == Regs(r.d, Md5Step(F2(r.b, r.c, r.d), r.a, r.b, x[12] + 0x8d2a4c8a, 20), r.b, r.c)
  {
    Round2Ops();
    Unfold(31, 1, q, r, x, 12, 20, 0x8d2a4c8a);
    StepIs(1, r, x, 12, 20, 0x8d2a4c8a, F2(r.b, r.c, r.d));
  }

  lemma Step32(q: Regs, r: Regs, x: seq<word>)
    requires |x| == 16 && Rounds(32, q, x) == r
    ensures Rounds(33, q, x) == Regs(r.d, Md5Step(F3(r.b, r.c, r.d), r.a, r.b, x[5] + 0xfffa3942, 4), r.b, r.c)
  {
    Round3Ops();
    Unfold(32, 2, q, r, x, 5, 4, 0xfffa3942);
    StepIs(2, r, x, 5, 4, 0xfffa3942, F3(r.b, r.c, r.d));
  }

  lemma Step33(q: Regs, r: Regs, x: seq<word>)
    requires |x| == 16 && Rounds(33, q, x) == r
    ensures Rounds(34, q, x) == Regs(r.d, Md5Step(F3(r.b, r.c, r.d), r.a, r.b, x[8] + 0x8771f681, 11), r.b, r.c)
  {
    Round3Ops();
    Unfold(33, 2, q, r, x, 8, 11, 0x8771f681);
    StepIs(2, r, x, 8, 11, 0x8771f681, F3(r.b, r.c, r.d));
  }

  lemma Step34(q: Regs, r: Regs, x: seq<word>)
    requires |x| == 16 && Rounds(34, q, x) == r
    ensures Rounds(35, q, x) == Regs(r.d, Md5Step(F3(r.b, r.c, r.d), r.a, r.b, x[11] + 0x6d9d6122, 16), r.b, r.c)
  {
    Round3Ops();
    Unfold(34, 2, q, r, x, 11, 16, 0x6d9d6122);
    StepIs(2, r, x, 11, 16, 0x6d9d6122, F3(r.b, r.c, r.d));
  }

  lemma Step35(q: Regs, r: Regs, x: seq<word>)
    requires |x| == 16 && Rounds(35, q, x) == r
    ensures Rounds(36, q, x) == Regs(r.d, Md5Step(F3(r.b, r.c, r.d), r.a, r.b, x[14] + 0xfde5380c, 23), r.b, r.c)
  {
    Round3Ops();
    Unfold(35, 2, q, r, x, 14, 23, 0xfde5380c);
    StepIs(2, r, x, 14, 23, 0xfde5380c, F3(r.b, r.c, r.d));
  }

  lemma Step36(q: Regs, r: Regs, x: seq<word>)
    requires |x| == 16 && Rounds(36, q, x) == r
    ensures Rounds(37, q, x) == Regs(r.d, Md5Step(F3(r.b, r.c, r.d), r.a, r.b, x[1] + 0xa4beea44, 4), r.b, r.c)
  {
    Round3Ops();
    Unfold(36, 2, q, r, x, 1, 4, 0xa4beea44);
    StepIs(2, r, x, 1, 4, 0xa4beea44, F3(r.b, r.c, r.d));
  }

  lemma Step37(q: Regs, r: Regs, x: seq<word>)
    requires |x| == 16 && Rounds(37, q, x) == r
    ensures Rounds(38, q, x) == Regs(r.d, Md5Step(F3(r.b, r.c, r.d), r.a, r.b, x[4] + 0x4bdecfa9, 11), r.b, r.c)
  {
    Round3Ops();
    Unfold(37, 2, q, r, x, 4, 11, 0x4bdecfa9);
    StepIs(2, r, x, 4, 11, 0x4bdecfa9, F3(r.b, r.c, r.d));
  }

  lemma Step38(q: Regs, r: Regs, x: seq<word>)
    requires |x| == 16 && Rounds(38, q, x) == r
    ensures Rounds(39, q, x) == Regs(r.d, Md5Step(F3(r.b, r.c, r.d), r.a, r.b, x[7] + 0xf6bb4b60, 16), r.b, r.c)
  {
    Round3Ops();
    Unfold(38, 2, q, r, x, 7, 16, 0xf6bb4b60);
    StepIs(2, r, x, 7, 16, 0xf6bb4b60, F3(r.b, r.c, r.d));
  }

  lemma Step39(q: Regs, r: Regs, x: seq<word>)
    requires |x| == 16 && Rounds(39, q, x) == r
    ensures Rounds(40, q, x) == Regs(r.d, Md5Step(F3(r.b, r.c, r.d), r.a, r.b, x[10] + 0xbebfbc70, 23), r.b, r.c)
  {
    Round3Ops();
    Unfold(39, 2, q, r, x, 10, 23, 0xbebfbc70);
    StepIs(2, r, x, 10, 23, 0xbebfbc70, F3(r.b, r.c, r.d));
  }

  lemma Step40(q: Regs, r: Regs, x: seq<word>)
    requires |x| == 16 && Rounds(40, q, x) == r
    ensures Rounds(41, q, x) == Regs(r.d, Md5Step(F3(r.b, r.c, r.d), r.a, r.b, x[13] + 0x289b7ec6, 4), r.b, r.c)
  {
    Round3Ops();
    Unfold(40, 2, q, r, x, 13, 4, 0x289b7ec6);
    StepIs(2, r, x, 13, 4, 0x289b7ec6, F3(r.b, r.c, r.d));
  }

  lemma Step41(q: Regs, r: Regs, x: seq<word>)
    requires |x| == 16 && Rounds(41, q, x) == r
    ensures Rounds(42, q, x) == Regs(r.d, Md5Step(F3(r.b, r.c, r.d), r.a, r.b, x[0] + 0xeaa127fa, 11), r.b, r.c)
  {
    Round3Ops();
    Unfold(41, 2, q, r, x, 0, 11, 0xeaa127fa);
    StepIs(2, r, x, 0, 11, 0xeaa127fa, F3(r.b, r.c, r.d));
  }

  lemma Step42(q: Regs, r: Regs, x: seq<word>)
    requires |x| == 16 && Rounds(42, q, x) == r
    ensures Rounds(43, q, x) == Regs(r.d, Md5Step(F3(r.b, r.c, r.d), r.a, r.b, x[3] + 0xd4ef3085, 16), r.b, r.c)
  {
    Round3Ops();
    Unfold(42, 2, q, r, x, 3, 16, 0xd4ef3085);
    StepIs(2, r, x, 3, 16, 0xd4ef3085, F3(r.b, r.c, r.d));
  }

  lemma Step43(q: Regs, r: Regs, x: seq<word>)
    requires |x| == 16 && Rounds(43, q, x) == r
    ensures Rounds(44, q, x) == Regs(r.d, Md5Step(F3(r.b, r.c, r.d), r.a, r.b, x[6] + 0x04881d05, 23), r.b, r.c)
  {
    Round3Ops();
    Unfold(43, 2, q, r, x, 6, 23, 0x04881d05);
    StepIs(2, r, x, 6, 23, 0x04881d05, F3(r.b, r.c, r.d));
  }

  lemma Step44(q: Regs, r: Regs, x: seq<word>)
    requires |x| == 16 && Rounds(44, q, x) == r
    ensures Rounds(45, q, x) == Regs(r.d, Md5Step(F3(r.b, r.c, r.d), r.a, r.b, x[9] + 0xd9d4d039, 4), r.b, r.c)
  {
    Round3Ops();
    Unfold(44, 2, q, r, x, 9, 4, 0xd9d4d039);
    StepIs(2, r, x, 9, 4, 0xd9d4d039, F3(r.b, r.c, r.d));
  }

  lemma Step45(q: Regs, r: Regs, x: seq<word>)
    requires |x| == 16 && Rounds(45, q, x) == r
    ensures Rounds(46, q, x) == Regs(r.d, Md5Step(F3(r.b, r.c, r.d), r.a, r.b, x[12] + 0xe6db99e5, 11), r.b, r.c)
  {
    Round3Ops();
    Unfold(45, 2, q, r, x, 12, 11, 0xe6db99e5);
    StepIs(2, r, x, 12, 11, 0xe6db99e5, F3(r.b, r.c, r.d));
  }

  lemma Step46(q: Regs, r: Regs, x: seq<word>)
    requires |x| == 16 && Rounds(46, q, x) == r
    ensures Rounds(47, q, x) == Regs(r.d, Md5Step(F3(r.b, r.c, r.d), r.a, r.b, x[15] + 0x1fa27cf8, 16), r.b, r.c)
  {
    Round3Ops();
    Unfold(46, 2, q, r, x, 15, 16, 0x1fa27cf8);
    StepIs(2, r, x, 15, 16, 0x1fa27cf8, F3(r.b, r.c, r.d));
  }

  lemma Step47(q: Regs, r: Regs, x: seq<word>)
    requires |x| == 16 && Rounds(47, q, x) == r
    ensures Rounds(48, q, x) == Regs(r.d, Md5Step(F3(r.b, r.c, r.d), r.a, r.b, x[2] + 0xc4ac5665, 23), r.b, r.c)
  {
    Round3Ops();
    Unfold(47, 2, q, r, x, 2, 23, 0xc4ac5665);
    StepIs(2, r, x, 2, 23, 0xc4ac5665, F3(r.b, r.c, r.d));
  }

  lemma Step48(q: Regs, r: Regs, x: seq<word>)
    requires |x| == 16 && Rounds(48, q, x) == r
    ensures Rounds(49, q, x) == Regs(r.d, Md5Step(F4(r.b, r.c, r.d), r.a, r.b, x[0] + 0xf4292244, 6), r.b, r.c)
  {
    Round4Ops();
    Unfold(48, 3, q, r, x, 0, 6, 0xf4292244);
    StepIs(3, r, x, 0, 6, 0xf4292244, F4(r.b, r.c, r.d));
  }

  lemma Step49(q: Regs, r: Regs, x: seq<word>)
    requires |x| == 16 && Rounds(49, q, x) == r
    ensures Rounds(50, q, x) == Regs(r.d, Md5Step(F4(r.b, r.c, r.d), r.a, r.b, x[7] + 0x432aff97, 10), r.b, r.c)
  {
    Round4Ops();
    Unfold(49, 3, q, r, x, 7, 10, 0x432aff97);
    StepIs(3, r, x, 7, 10, 0x432aff97, F4(r.b, r.c, r.d));
  }

  lemma Step50(q: Regs, r: Regs, x: seq<word>)
    requires |x| == 16 && Rounds(50, q, x) == r
    ensures Rounds(51, q, x) == Regs(r.d, Md5Step(F4(r.b, r.c, r.d), r.a, r.b, x[14] + 0xab9423a7, 15), r.b, r.c)
  {
    Round4Ops();
    Unfold(50, 3, q, r, x, 14, 15, 0xab9423a7);
    StepIs(3, r, x, 14, 15, 0xab9423a7, F4(r.b, r.c, r.d));
  }

  lemma Step51(q: Regs, r: Regs, x: seq<word>)
    requires |x| == 16 && Rounds(51, q, x) == r
    ensures Rounds(52, q, x) == Regs(r.d, Md5Step(F4(r.b, r.c, r.d), r.a, r.b, x[5] + 0xfc93a039, 21), r.b, r.c)
  {
    Round4Ops();
    Unfold(51, 3, q, r, x, 5, 21, 0xfc93a039);
    StepIs(3, r, x, 5, 21, 0xfc93a039, F4(r.b, r.c, r.d));
  }

  lemma Step52(q: Regs, r: Regs, x: seq<word>)
    requires |x| == 16 && Rounds(52, q, x) == r
    ensures Rounds(53, q, x) == Regs(r.d, Md5Step(F4(r.b, r.c, r.d), r.a, r.b, x[12] + 0x655b59c3, 6), r.b, r.c)
  {
    Round4Ops();
    Unfold(52, 3, q, r, x, 12, 6, 0x655b59c3);
    StepIs(3, r, x, 12, 6, 0x655b59c3, F4(r.b, r.c, r.d));
  }

  lemma Step53(q: Regs, r: Regs, x: seq<word>)
    requires |x| == 16 && Rounds(53, q, x) == r
    ensures Rounds(54, q, x) == Regs(r.d, Md5Step(F4(r.b, r.c, r.d), r.a, r.b, x[3] + 0x8f0ccc92, 10), r.b, r.c)
  {
    Round4Ops();
    Unfold(53, 3, q, r, x, 3, 10, 0x8f0ccc92);
    StepIs(3, r, x, 3, 10, 0x8f0ccc92, F4(r.b, r.c, r.d));
  }

  lemma Step54(q: Regs, r: Regs, x: seq<word>)
    requires |x| == 16 && Rounds(54, q, x) == r
    ensures Rounds(55, q, x) == Regs(r.d, Md5Step(F4(r.b, r.c, r.d), r.a, r.b, x[10] + 0xffeff47d, 15), r.b, r.c)
  {
    Round4Ops();
    Unfold(54, 3, q, r, x, 10, 15, 0xffeff47d);
    StepIs(3, r, x, 10, 15, 0xffeff47d, F4(r.b, r.c, r.d));
  }

  lemma Step55(q: Regs, r: Regs, x: seq<word>)
    requires |x| == 16 && Rounds(55, q, x) == r
    ensures Rounds(56, q, x) == Regs(r.d, Md5Step(F4(r.b, r.c, r.d), r.a, r.b, x[1] + 0x85845dd1, 21), r.b, r.c)
  {
    Round4Ops();
    Unfold(55, 3, q, r, x, 1, 21, 0x85845dd1);
    StepIs(3, r, x, 1, 21, 0x85845dd1, F4(r.b, r.c, r.d));
  }

  lemma Step56(q: Regs, r: Regs, x: seq<word>)
    requires |x| == 16 && Rounds(56, q, x) == r
    ensures Rounds(57, q, x) == Regs(r.d, Md5Step(F4(r.b, r.c, r.d), r.a, r.b, x[8] + 0x6fa87e4f, 6), r.b, r.c)
  {
    Round4Ops();
    Unfold(56, 3, q, r, x, 8, 6, 0x6fa87e4f);
    StepIs(3, r, x, 8, 6, 0x6fa87e4f, F4(r.b, r.c, r.d));
  }

  lemma Step57(q: Regs, r: Regs, x: seq<word>)
    requires |x| == 16 && Rounds(57, q, x) == r
    ensures Rounds(58, q, x) == Regs(r.d, Md5Step(F4(r.b, r.c, r.d), r.a, r.b, x[15] + 0xfe2ce6e0, 10), r.b, r.c)
  {
    Round4Ops();
    Unfold(57, 3, q, r, x, 15, 10, 0xfe2ce6e0);
    StepIs(3, r, x, 15, 10, 0xfe2ce6e0, F4(r.b, r.c, r.d));
  }

  lemma Step58(q: Regs, r: Regs, x: seq<word>)
    requires |x| == 16 && Rounds(58, q, x) == r
    ensures Rounds(59, q, x) == Regs(r.d, Md5Step(F4(r.b, r.c, r.d), r.a, r.b, x[6] + 0xa3014314, 15), r.b, r.c)
  {
    Round4Ops();
    Unfold(58, 3, q, r, x, 6, 15, 0xa3014314);
    StepIs(3, r, x, 6, 15, 0xa3014314, F4(r.b, r.c, r.d));
  }

  lemma Step59(q: Regs, r: Regs, x: seq<word>)
    requires |x| == 16 && Rounds(59, q, x) == r
    ensures Rounds(60, q, x) == Regs(r.d, Md5Step(F4(r.b, r.c, r.d), r.a, r.b, x[13] + 0x4e0811a1, 21), r.b, r.c)
  {
    Round4Ops();
    Unfold(59, 3, q, r, x, 13, 21, 0x4e0811a1);
    StepIs(3, r, x, 13, 21, 0x4e0811a1, F4(r.b, r.c, r.d));
  }

  lemma Step60(q: Regs, r: Regs, x: seq<word>)
    requires |x| == 16 && Rounds(60, q, x) == r
    ensures Rounds(61, q, x) == Regs(r.d, Md5Step(F4(r.b, r.c, r.d), r.a, r.b, x[4] + 0xf7537e82, 6), r.b, r.c)
  {
    Round4Ops();
    Unfold(60, 3, q, r, x, 4, 6, 0xf7537e82);
    StepIs(3, r, x, 4, 6, 0xf7537e82, F4(r.b, r.c, r.d));
  }

  lemma Step61(q: Regs, r: Regs, x: seq<word>)
    requires |x| == 16 && Rounds(61, q, x) == r
    ensures Rounds(62, q, x) == Regs(r.d, Md5Step(F4(r.b, r.c, r.d), r.a, r.b, x[11] + 0xbd3af235, 10), r.b, r.c)
  {
    Round4Ops();
    Unfold(61, 3, q, r, x, 11, 10, 0xbd3af235);
    StepIs(3, r, x, 11, 10, 0xbd3af235, F4(r.b, r.c, r.d));
  }

  lemma Step62(q: Regs, r: Regs, x: seq<word>)
    requires |x| == 16 && Rounds(62, q, x) == r
    ensures Rounds(63, q, x) == Regs(r.d, Md5Step(F4(r.b, r.c, r.d), r.a, r.b, x[2] + 0x2ad7d2bb, 15), r.b, r.c)
  {
    Round4Ops();
    Unfold(62, 3, q, r, x, 2, 15, 0x2ad7d2bb);
    StepIs(3, r, x, 2, 15, 0x2ad7d2bb, F4(r.b, r.c, r.d));
  }

  lemma Step63(q: Regs, r: Regs, x: seq<word>)
    requires |x| == 16 && Rounds(63, q, x) == r
    ensures Rounds(64, q, x) == Regs(r.d, Md5Step(F4(r.b, r.c, r.d), r.a, r.b, x[9] + 0xeb86d391, 21), r.b, r.c)
  {
    Round4Ops();
    Unfold(63, 3, q, r, x, 9, 21, 0xeb86d391);
    StepIs(3, r, x, 9, 21, 0xeb86d391, F4(r.b, r.c, r.d));
  }

  // Each statement below is preceded by a ghost call naming the step of the
  // specification it performs.

  /** Round 1 of md5Transform: the sixteen steps with F1 on registers (a, b, c, d). */
  method Round1(a0: word, b0: word, c0: word, d0: word, x: seq<word>) returns (a: word, b: word, c: word, d: word)
    requires |x| == 16
    ensures Regs(a, b, c, d) == Rounds(16, Regs(a0, b0, c0, d0), x)
  {
    a, b, c, d := a0, b0, c0, d0;
    ghost var q := Regs(a, b, c, d);
    Step0(q, Regs(a, b, c, d), x);
    a := Md5Step(F1(b, c, d), a, b, x[0] + 0xd76aa478, 7);
    Step1(q, Regs(d, a, b, c), x);
    d := Md5Step(F1(a, b, c), d, a, x[1] + 0xe8c7b756, 12);
    Step2(q, Regs(c, d, a, b), x);
    c := Md5Step(F1(d, a, b), c, d, x[2] + 0x242070db, 17);
    Step3(q, Regs(b, c, d, a), x);
    b := Md5Step(F1(c, d, a), b, c, x[3] + 0xc1bdceee, 22);
    Step4(q, Regs(a, b, c, d), x);
    a := Md5Step(F1(b, c, d), a, b, x[4] + 0xf57c0faf, 7);
    Step5(q, Regs(d, a, b, c), x);
    d := Md5Step(F1(a, b, c), d, a, x[5] + 0x4787c62a, 12);
    Step6(q, Regs(c, d, a, b), x);
    c := Md5Step(F1(d, a, b), c, d, x[6] + 0xa8304613, 17);
    Step7(q, Regs(b, c, d, a), x);
    b := Md5Step(F1(c, d, a), b, c, x[7] + 0xfd469501, 22);
    Step8(q, Regs(a, b, c, d), x);
    a := Md5Step(F1(b, c, d), a, b, x[8] + 0x698098d8, 7);
    Step9(q, Regs(d, a, b, c), x);
    d := Md5Step(F1(a, b, c), d, a, x[9] + 0x8b44f7af, 12);
    Step10(q, Regs(c, d, a, b), x);
    c := Md5Step(F1(d, a, b), c, d, x[10] + 0xffff5bb1, 17);
    Step11(q, Regs(b, c, d, a), x);
    b := Md5Step(F1(c, d, a), b, c, x[11] + 0x895cd7be, 22);
    Step12(q, Regs(a, b, c, d), x);
    a := Md5Step(F1(b, c, d), a, b, x[12] + 0x6b901122, 7);
    Step13(q, Regs(d, a, b, c), x);
    d := Md5Step(F1(a, b, c), d, a, x[13] + 0xfd987193, 12);
    Step14(q, Regs(c, d, a, b), x);
    c := Md5Step(F1(d, a, b), c, d, x[14] + 0xa679438e, 17);
    Step15(q, Regs(b, c, d, a), x);
    b := Md5Step(F1(c, d, a), b, c, x[15] + 0x49b40821, 22);
  }

  /** Round 2 of md5Transform: the sixteen steps with F2, continuing from the registers after 16 steps. */
  method Round2(ghost q: Regs, a0: word, b0: word, c0: word, d0: word, x: seq<word>) returns (a: word, b: word, c: word, d: word)
    requires |x| == 16 && Rounds(16, q, x) == Regs(a0, b0, c0, d0)
    ensures Regs(a, b, c, d) == Rounds(32, q, x)
  {
    a, b, c, d := a0, b0, c0, d0;
    Step16(q, Regs(a, b, c, d), x);
    a := Md5Step(F2(b, c, d), a, b, x[1] + 0xf61e2562, 5);
    Step17(q, Regs(d, a, b, c), x);
    d := Md5Step(F2(a, b, c), d, a, x[6] + 0xc040b340, 9);
    Step18(q, Regs(c, d, a, b), x);
    c := Md5Step(F2(d, a, b), c, d, x[11] + 0x265e5a51, 14);
    Step19(q, Regs(b, c, d, a), x);
    b := Md5Step(F2(c, d, a), b, c, x[0] + 0xe9b6c7aa, 20);
    Step20(q, Regs(a, b, c, d), x);
    a := Md5Step(F2(b, c, d), a, b, x[5] + 0xd62f105d, 5);
    Step21(q, Regs(d, a, b, c), x);
    d := Md5Step(F2(a, b, c), d, a, x[10] + 0x02441453, 9);
    Step22(q, Regs(c, d, a, b), x);
    c := Md5Step(F2(d, a, b), c, d, x[15] + 0xd8a1e681, 14);
    Step23(q, Regs(b, c, d, a), x);
    b := Md5Step(F2(c, d, a), b, c, x[4] + 0xe7d3fbc8, 20);
    Step24(q, Regs(a, b, c, d), x);
    a := Md5Step(F2(b, c, d), a, b, x[9] + 0x21e1cde6, 5);
    Step25(q, Regs(d, a, b, c), x);
    d := Md5Step(F2(a, b, c), d, a, x[14] + 0xc33707d6, 9);
    Step26(q, Regs(c, d, a, b), x);
    c := Md5Step(F2(d, a, b), c, d, x[3] + 0xf4d50d87, 14);
    Step27(q, Regs(b, c, d, a), x);
    b := Md5Step(F2(c, d, a), b, c, x[8] + 0x455a14ed, 20);
    Step28(q, Regs(a, b, c, d), x);
    a := Md5Step(F2(b, c, d), a, b, x[13] + 0xa9e3e905, 5);
    Step29(q, Regs(d, a, b, c), x);
    d := Md5Step(F2(a, b, c), d, a, x[2] + 0xfcefa3f8, 9);
    Step30(q, Regs(c, d, a, b), x);
    c := Md5Step(F2(d, a, b), c, d, x[7] + 0x676f02d9, 14);
    Step31(q, Regs(b, c, d, a), x);
    b := Md5Step(F2(c, d, a), b, c, x[12] + 0x8d2a4c8a, 20);
  }

  /** Round 3 of md5Transform: the sixteen steps with F3, continuing from the registers after 32 steps. */
  method Round3(ghost q: Regs, a0: word, b0: word, c0: word, d0: word, x: seq<word>) returns (a: word, b: word, c: word, d: word)
    requires |x| == 16 && Rounds(32, q, x) == Regs(a0, b0, c0, d0)
    ensures Regs(a, b, c, d) == Rounds(48, q, x)
  {
    a, b, c, d := a0, b0, c0, d0;
    Step32(q, Regs(a, b, c, d), x);
    a := Md5Step(F3(b, c, d), a, b, x[5] + 0xfffa3942, 4);
    Step33(q, Regs(d, a, b, c), x);
    d := Md5Step(F3(a, b, c), d, a, x[8] + 0x8771f681, 11);
    Step34(q, Regs(c, d, a, b), x);
    c := Md5Step(F3(d, a, b), c, d, x[11] + 0x6d9d6122, 16);
    Step35(q, Regs(b, c, d, a), x);
    b := Md5Step(F3(c, d, a), b, c, x[14] + 0xfde5380c, 23);
    Step36(q, Regs(a, b, c, d), x);
    a := Md5Step(F3(b, c, d), a, b, x[1] + 0xa4beea44, 4);
    Step37(q, Regs(d, a, b, c), x);
    d := Md5Step(F3(a, b, c), d, a, x[4] + 0x4bdecfa9, 11);
    Step38(q, Regs(c, d, a, b), x);
    c := Md5Step(F3(d, a, b), c, d, x[7] + 0xf6bb4b60, 16);
    Step39(q, Regs(b, c, d, a), x);
    b := Md5Step(F3(c, d, a), b, c, x[10] + 0xbebfbc70, 23);
    Step40(q, Regs(a, b, c, d), x);
    a := Md5Step(F3(b, c, d), a, b, x[13] + 0x289b7ec6, 4);
    Step41(q, Regs(d, a, b, c), x);
    d := Md5Step(F3(a, b, c), d, a, x[0] + 0xeaa127fa, 11);
    Step42(q, Regs(c, d, a, b), x);
    c := Md5Step(F3(d, a, b), c, d, x[3] + 0xd4ef3085, 16);
    Step43(q, Regs(b, c, d, a), x);
    b := Md5Step(F3(c, d, a), b, c, x[6] + 0x04881d05, 23);
    Step44(q, Regs(a, b, c, d), x);
    a := Md5Step(F3(b, c, d), a, b, x[9] + 0xd9d4d039, 4);
    Step45(q, Regs(d, a, b, c), x);
    d := Md5Step(F3(a, b, c), d, a, x[12] + 0xe6db99e5, 11);
    Step46(q, Regs(c, d, a, b), x);
    c := Md5Step(F3(d, a, b), c, d, x[15] + 0x1fa27cf8, 16);
    Step47(q, Regs(b, c, d, a), x);
    b := Md5Step(F3(c, d, a), b, c, x[2] + 0xc4ac5665, 23);
  }

  /** Round 4 of md5Transform: the sixteen steps with F4, continuing from the registers after 48 steps. */
  method Round4(ghost q: Regs, a0: word, b0: word, c0: word, d0: word, x: seq<word>) returns (a: word, b: word, c: word, d: word)
    requires |x| == 16 && Rounds(48, q, x) == Regs(a0, b0, c0, d0)
    ensures Regs(a, b, c, d) == Rounds(64, q, x)
  {
    a, b, c, d := a0, b0, c0, d0;
    Step48(q, Regs(a, b, c, d), x);
    a := Md5Step(F4(b, c, d), a, b, x[0] + 0xf4292244, 6);
    Step49(q, Regs(d, a, b, c), x);
    d := Md5Step(F4(a, b, c), d, a, x[7] + 0x432aff97, 10);
    Step50(q, Regs(c, d, a, b), x);
    c := Md5Step(F4(d, a, b), c, d, x[14] + 0xab9423a7, 15);
    Step51(q, Regs(b, c, d, a), x);
    b := Md5Step(F4(c, d, a), b, c, x[5] + 0xfc93a039, 21);
    Step52(q, Regs(a, b, c, d), x);
    a := Md5Step(F4(b, c, d), a, b, x[12] + 0x655b59c3, 6);
    Step53(q, Regs(d, a, b, c), x);
    d := Md5Step(F4(a, b, c), d, a, x[3] + 0x8f0ccc92, 10);
    Step54(q, Regs(c, d, a, b), x);
    c := Md5Step(F4(d, a, b), c, d, x[10] + 0xffeff47d, 15);
    Step55(q, Regs(b, c, d, a), x);
    b := Md5Step(F4(c, d, a), b, c, x[1] + 0x85845dd1, 21);
    Step56(q, Regs(a, b, c, d), x);
    a := Md5Step(F4(b, c, d), a, b, x[8] + 0x6fa87e4f, 6);
    Step57(q, Regs(d, a, b, c), x);
    d := Md5Step(F4(a, b, c), d, a, x[15] + 0xfe2ce6e0, 10);
    Step58(q, Regs(c, d, a, b), x);
    c := Md5Step(F4(d, a, b), c, d, x[6] + 0xa3014314, 15);
    Step59(q, Regs(b, c, d, a), x);
    b := Md5Step(F4(c, d, a), b, c, x[13] + 0x4e0811a1, 21);
    Step60(q, Regs(a, b, c, d), x);
    a := Md5Step(F4(b, c, d), a, b, x[4] + 0xf7537e82, 6);
    Step61(q, Regs(d, a, b, c), x);
    d := Md5Step(F4(a, b, c), d, a, x[11] + 0xbd3af235, 10);
    Step62(q, Regs(c, d, a, b), x);
    c := Md5Step(F4(d, a, b), c, d, x[2] + 0x2ad7d2bb, 15);
    Step63(q, Regs(b, c, d, a), x);
    b := Md5Step(F4(c, d, a), b, c, x[9] + 0xeb86d391, 21);
  }

  /** The final additions of md5Transform: each working register is added into buf. */
  method AddInto(buf: array<word>, q: Regs)
    requires buf.Length == 4
    modifies buf
    ensures buf[..] == Finish(old(buf[..]), q)
  {
    var sum := Finish(buf[..], q);
    buf[0], buf[1], buf[2], buf[3] := sum[0], sum[1], sum[2], sum[3];
    assert buf[..] == sum;
  }

  /**
   * md5Transform: the four rounds, after which each working register is
   * added into buf.  The block is passed by value: the transform reads it
   * and does not change it.
   */
  method Transform(buf: array<word>, block: seq<word>)
    requires buf.Length == 4 && |block| == 16
    modifies buf
    ensures buf[..] == Compress(old(buf[..]), block)
  {
    ghost var h := buf[..];
    var a, b, c, d := Round1(buf[0], buf[1], buf[2], buf[3], block);
    a, b, c, d := Round2(Regs(h[0], h[1], h[2], h[3]), a, b, c, d, block);
    a, b, c, d := Round3(Regs(h[0], h[1], h[2], h[3]), a, b, c, d, block);
    a, b, c, d := Round4(Regs(h[0], h[1], h[2], h[3]), a, b, c, d, block);
    AddInto(buf, Regs(a, b, c, d));
  }
}
