/**
 SHA-1 as sections 4 to 6.1 of RFC 3174 define it: padding, the logical functions and
 constants, and the method with an eighty-word schedule.
 */
module Sha1Spec {
  type Byte = bv8
  type Word = bv32

  const WORD: nat := 0x1_0000_0000

  datatype Regs = Regs(a: Word, b: Word, c: Word, d: Word, e: Word)

  function Add(x: Word, y: Word): Word { x + y }

  function Sum(x: Word, y: Word, z: Word, u: Word, v: Word): Word { x + y + z + u + v }

  function S1(x: Word): Word { (x << 1) | (x >> 31) }

  function S5(x: Word): Word { (x << 5) | (x >> 27) }

  function S30(x: Word): Word { (x << 30) | (x >> 2) }

  /** The logical functions of section 5. */
  function F(t: nat, b: Word, c: Word, d: Word): Word {
    if t < 20 then (b & c) | (!b & d)
    else if t < 40 then b ^ c ^ d
    else if t < 60 then (b & c) | (b & d) | (c & d)
    else b ^ c ^ d
  }

  function K(t: nat): Word {
    if t < 20 then 0x5A827999 else if t < 40 then 0x6ED9EBA1 else if t < 60 then 0x8F1BBCDC else 0xCA62C1D6
  }

  function Mix(x: Word, y: Word, z: Word, u: Word): Word { S1(x ^ y ^ z ^ u) }

  /** Word t of the message schedule of section 6.1. */
  function Sched(m: seq<Word>, t: nat): Word
    requires |m| == 16
  {
    if t < 16 then m[t]
    else Mix(Sched(m, t - 3), Sched(m, t - 8), Sched(m, t - 14), Sched(m, t - 16))
  }

  function Cycle(r: Regs, t: nat, w: Word): Regs {
    Regs(Sum(S5(r.a), F(t, r.b, r.c, r.d), r.e, w, K(t)), r.a, S30(r.b), r.c, r.d)
  }

  /** The registers A to E after t rounds. */
  function Rounds(h: Regs, m: seq<Word>, t: nat): Regs
    requires |m| == 16
  {
    if t == 0 then h else Cycle(Rounds(h, m, t - 1), t - 1, Sched(m, t - 1))
  }

  function Plus(x: Regs, y: Regs): Regs {
    Regs(Add(x.a, y.a), Add(x.b, y.b), Add(x.c, y.c), Add(x.d, y.d), Add(x.e, y.e))
  }

  /** One block of section 6.1. */
  function Block(h: Regs, m: seq<Word>): Regs
    requires |m| == 16
  {
    Plus(h, Rounds(h, m, 80))
  }

  const H0 := Regs(0x67452301, 0xEFCDAB89, 0x98BADCFE, 0x10325476, 0xC3D2E1F0)

  /** Four bytes as a word, the first byte the most significant. */
  function Pack(b0: Byte, b1: Byte, b2: Byte, b3: Byte): Word {
    ((b0 as Word) << 24) | ((b1 as Word) << 16) | ((b2 as Word) << 8) | (b3 as Word)
  }

  function Bytes(w: Word): (s: seq<Byte>)
    ensures |s| == 4
  {
    [(w >> 24) as Byte, ((w >> 16) & 0xFF) as Byte, ((w >> 8) & 0xFF) as Byte, (w & 0xFF) as Byte]
  }

  function Words(s: seq<Byte>): (w: seq<Word>)
    requires |s| == 64
    ensures |w| == 16
  {
    seq(16, i requires 0 <= i < 16 => Pack(s[4 * i], s[4 * i + 1], s[4 * i + 2], s[4 * i + 3]))
  }

  /** The chaining value after a whole number of blocks. */
  function Chain(s: seq<Byte>): Regs
    requires |s| % 64 == 0
  {
    if |s| == 0 then H0 else Block(Chain(s[..|s| - 64]), Words(s[|s| - 64..]))
  }

  function WordOf(n: nat): Word {
    (n % WORD) as Word
  }

  /** The length in bits of a message of n bytes, as two words. */
  function Length(n: nat): (s: seq<Byte>)
    ensures |s| == 8
  {
    Bytes(WordOf(8 * n / WORD)) + Bytes(WordOf(8 * n))
  }

  function Zeros(n: nat): (s: seq<Byte>)
    ensures |s| == n
  {
    seq(n, _ => 0)
  }

  /** The number of zero bytes that fill the last block. */
  function Fill(n: nat): (k: nat)
    ensures (n + 1 + k + 8) % 64 == 0 && k < 64
  {
    if n % 64 <= 55 then 55 - n % 64 else 119 - n % 64
  }

  /** The padding of section 4: a one bit, zeros and the length, up to a whole block. */
  function Padding(n: nat): (s: seq<Byte>)
    ensures (n + |s|) % 64 == 0 && 9 <= |s| < 9 + 64
  {
    [0x80] + Zeros(Fill(n)) + Length(n)
  }

  function Digest(msg: seq<Byte>): seq<Byte> {
    var h := Chain(msg + Padding(|msg|));
    Bytes(h.a) + Bytes(h.b) + Bytes(h.c) + Bytes(h.d) + Bytes(h.e)
  }
}
