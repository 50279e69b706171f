/**
 The streaming interface of the UTS SHA-1 (benchmarks/uts/rng/brg_sha1.c): sha1_begin,
 sha1_hash and sha1_end on a context whose buffer is read both as bytes and as words.
 */
module Sha1Stream {
  import opened Sha1Spec
  import opened Sha1

  // ------------------------------------------------------------- bytes of words

  lemma BytesOfPack(b0: Byte, b1: Byte, b2: Byte, b3: Byte)
    ensures Bytes(Pack(b0, b1, b2, b3)) == [b0, b1, b2, b3]
  {
  }

  lemma PackOfBytes(w: Word)
    ensures Pack(Bytes(w)[0], Bytes(w)[1], Bytes(w)[2], Bytes(w)[3]) == w
  {
  }

  /** Byte j of a word in memory, on a little-endian or a big-endian machine. */
  function ByteOf(little: bool, w: Word, j: nat): Byte
    requires j < 4
  {
    Bytes(w)[if little then 3 - j else j]
  }

  function SetByte(little: bool, w: Word, j: nat, b: Byte): Word
    requires j < 4
  {
    var s := Bytes(w)[(if little then 3 - j else j) := b];
    Pack(s[0], s[1], s[2], s[3])
  }

  lemma SetByteIs(little: bool, w: Word, j: nat, b: Byte)
    requires j < 4
    ensures forall i :: 0 <= i < 4 ==> ByteOf(little, SetByte(little, w, j, b), i) == if i == j then b else ByteOf(little, w, i)
  {
    hide Pack, Bytes;
    var s := Bytes(w)[(if little then 3 - j else j) := b];
    BytesOfPack(s[0], s[1], s[2], s[3]);
  }

  function Rotr8(x: Word): Word { (x >> 8) | (x << 24) }

  function Rotr24(x: Word): Word { (x >> 24) | (x << 8) }

  function Bswap(x: Word): Word {
    (Rotr24(x) & 0x00ff00ff) | (Rotr8(x) & 0xff00ff00)
  }

  lemma BswapIs(x: Word)
    ensures Bytes(Bswap(x)) == [Bytes(x)[3], Bytes(x)[2], Bytes(x)[1], Bytes(x)[0]]
  {
  }

  /** Byte p of the buffer. */
  function MemByte(little: bool, w: seq<Word>, p: nat): Byte
    requires |w| == 16 && p < 64
  {
    ByteOf(little, w[p / 4], p % 4)
  }

  lemma SetMem(little: bool, w: seq<Word>, p: nat, b: Byte)
    requires |w| == 16 && p < 64
    ensures var w' := w[p / 4 := SetByte(little, w[p / 4], p % 4, b)];
            forall q :: 0 <= q < 64 ==> MemByte(little, w', q) == if q == p then b else MemByte(little, w, q)
  {
    hide ByteOf, SetByte;
    SetByteIs(little, w[p / 4], p % 4, b);
    var w' := w[p / 4 := SetByte(little, w[p / 4], p % 4, b)];
    forall q | 0 <= q < 64 ensures MemByte(little, w', q) == if q == p then b else MemByte(little, w, q) {
      if q / 4 == p / 4 && q % 4 == p % 4 {
        assert q == p;
      }
    }
  }

  /** Keep the first j bytes of a word and put the first padding byte after them. */
  function Marked(x: Word, j: nat): Word {
    if j == 0 then (x & (0xffffff80 << 24)) | (0x00000080 << 24)
    else if j == 1 then (x & (0xffffff80 << 16)) | (0x00000080 << 16)
    else if j == 2 then (x & (0xffffff80 << 8)) | (0x00000080 << 8)
    else (x & 0xffffff80) | 0x00000080
  }

  lemma Mark0(x: Word)
    ensures Bytes(Marked(x, 0)) == [0x80, 0, 0, 0]
  {
  }

  lemma Mark1(x: Word)
    ensures Bytes(Marked(x, 1)) == [Bytes(x)[0], 0x80, 0, 0]
  {
  }

  lemma Mark2(x: Word)
    ensures Bytes(Marked(x, 2)) == [Bytes(x)[0], Bytes(x)[1], 0x80, 0]
  {
  }

  lemma Mark3(x: Word)
    ensures Bytes(Marked(x, 3)) == [Bytes(x)[0], Bytes(x)[1], Bytes(x)[2], 0x80]
  {
  }

  lemma MarkIs(x: Word, j: nat)
    requires j < 4
    ensures forall i :: 0 <= i < 4 ==>
              Bytes(Marked(x, j))[i] == if i < j then Bytes(x)[i] else if i == j then 0x80 else 0
  {
    hide Bytes, Marked;
    if j == 0 { Mark0(x); } else if j == 1 { Mark1(x); } else if j == 2 { Mark2(x); } else { Mark3(x); }
  }

  lemma ZeroBytes()
    ensures Bytes(0) == [0, 0, 0, 0]
  {
  }

  // ------------------------------------------------------------- blocks

  /** The sixteen words hold the sixty-four bytes, most significant byte first. */
  ghost predicate Reads(w: seq<Word>, s: seq<Byte>) {
    && |w| == 16 && |s| == 64
    && forall p :: 0 <= p < 64 ==> Bytes(w[p / 4])[p % 4] == s[p]
  }

  lemma ReadsWords(w: seq<Word>, s: seq<Byte>)
    requires Reads(w, s)
    ensures w == Words(s)
  {
    hide Bytes, Pack;
    forall k | 0 <= k < 16 ensures w[k] == Words(s)[k] {
      PackOfBytes(w[k]);
      assert Bytes(w[(4 * k) / 4])[(4 * k) % 4] == s[4 * k];
      assert Bytes(w[(4 * k + 1) / 4])[(4 * k + 1) % 4] == s[4 * k + 1];
      assert Bytes(w[(4 * k + 2) / 4])[(4 * k + 2) % 4] == s[4 * k + 2];
      assert Bytes(w[(4 * k + 3) / 4])[(4 * k + 3) % 4] == s[4 * k + 3];
    }
  }

  lemma ChainBlock(s: seq<Byte>, b: seq<Byte>)
    requires |s| % 64 == 0 && |b| == 64
    ensures Chain(s + b) == Block(Chain(s), Words(b))
  {
    hide Block, Words;
    assert (s + b)[..|s + b| - 64] == s && (s + b)[|s + b| - 64..] == b;
  }

  // ------------------------------------------------------------- messages

  /** The number of bytes of a message that wait in the buffer. */
  function Rest(msg: seq<Byte>): (n: nat)
    ensures n < 64 && n <= |msg| && (|msg| - n) % 64 == 0
  {
    |msg| % 64
  }

  /** The message is absorbed: its whole blocks in the chaining value, the rest in the buffer. */
  ghost predicate Absorbed(little: bool, hash: Regs, w: seq<Word>, msg: seq<Byte>) {
    && |w| == 16
    && hash == Chain(msg[..|msg| - Rest(msg)])
    && forall p :: 0 <= p < Rest(msg) ==> MemByte(little, w, p) == msg[|msg| - Rest(msg) + p]
  }

  /** A piece was copied behind the rest of the message. */
  ghost predicate Copied(little: bool, w: seq<Word>, w': seq<Word>, pos: nat, s: seq<Byte>) {
    && |w| == 16 && |w'| == 16 && pos + |s| <= 64
    && forall p :: 0 <= p < 64 ==>
         MemByte(little, w', p) == if pos <= p < pos + |s| then s[p - pos] else MemByte(little, w, p)
  }

  lemma AbsorbPart(little: bool, hash: Regs, w: seq<Word>, w': seq<Word>, msg: seq<Byte>, s: seq<Byte>)
    requires Absorbed(little, hash, w, msg) && Rest(msg) + |s| < 64 && Copied(little, w, w', Rest(msg), s)
    ensures Absorbed(little, hash, w', msg + s)
  {
    hide MemByte, Chain;
    assert Rest(msg + s) == Rest(msg) + |s|;
    assert (msg + s)[..|msg + s| - Rest(msg + s)] == msg[..|msg| - Rest(msg)];
  }

  /** The words hold the bytes of the buffer, most significant byte first. */
  ghost predicate Turned(little: bool, w: seq<Word>, words: seq<Word>) {
    && |w| == 16 && |words| == 16
    && forall p :: 0 <= p < 64 ==> Bytes(words[p / 4])[p % 4] == MemByte(little, w, p)
  }

  lemma WholeBlock(little: bool, hash: Regs, w: seq<Word>, w': seq<Word>, msg: seq<Byte>, s: seq<Byte>, words: seq<Word>)
    requires Absorbed(little, hash, w, msg) && Rest(msg) + |s| == 64 && Copied(little, w, w', Rest(msg), s)
    requires Turned(little, w', words)
    ensures Reads(words, msg[|msg| - Rest(msg)..] + s)
  {
    hide MemByte, Bytes, Chain;
    var b := msg[|msg| - Rest(msg)..] + s;
    forall p | 0 <= p < 64 ensures Bytes(words[p / 4])[p % 4] == b[p] {
      assert Bytes(words[p / 4])[p % 4] == MemByte(little, w', p);
    }
  }

  lemma AbsorbBlock(little: bool, hash: Regs, w: seq<Word>, w': seq<Word>, msg: seq<Byte>, s: seq<Byte>, words: seq<Word>)
    requires Absorbed(little, hash, w, msg) && Rest(msg) + |s| == 64 && Copied(little, w, w', Rest(msg), s)
    requires Turned(little, w', words)
    ensures Rest(msg + s) == 0 && Block(hash, words) == Chain(msg + s)
  {
    hide MemByte, Chain, Block, Bytes, Turned, Copied, Reads, Words;
    WholeBlock(little, hash, w, w', msg, s, words);
    var k := |msg| - Rest(msg);
    var b := msg[k..] + s;
    ReadsWords(words, b);
    ChainBlock(msg[..k], b);
    assert msg[..k] + b == msg + s;
  }

  lemma AbsorbedWhole(little: bool, w: seq<Word>, msg: seq<Byte>)
    requires Rest(msg) == 0 && |w| == 16
    ensures Absorbed(little, Chain(msg), w, msg)
  {
    hide Chain;
    assert msg[..|msg|] == msg;
  }

  // ------------------------------------------------------------- padding

  /** The first n words hold the first bytes of s. */
  ghost predicate Holds(w: seq<Word>, s: seq<Byte>, n: nat) {
    && |w| == 16 && |s| == 64 && n <= 16
    && forall p :: 0 <= p < 4 * n ==> Bytes(w[p / 4])[p % 4] == s[p]
  }

  lemma HoldsNothing(w: seq<Word>, s: seq<Byte>)
    requires |w| == 16 && |s| == 64
    ensures Holds(w, s, 0)
  {
  }

  lemma HoldsNext(w: seq<Word>, s: seq<Byte>, n: nat, x: Word)
    requires Holds(w, s, n) && n < 16 && Bytes(x) == s[4 * n..4 * n + 4]
    ensures Holds(w[n := x], s, n + 1)
  {
    hide Bytes;
    forall p | 0 <= p < 4 * (n + 1) ensures Bytes(w[n := x][p / 4])[p % 4] == s[p] {
      if p >= 4 * n {
        assert p / 4 == n && p % 4 == p - 4 * n;
      }
    }
  }

  lemma HoldsZero(w: seq<Word>, s: seq<Byte>, n: nat)
    requires Holds(w, s, n) && n < 16 && forall p :: 4 * n <= p < 4 * n + 4 ==> s[p] == 0
    ensures Holds(w[n := 0], s, n + 1)
  {
    hide Bytes;
    ZeroBytes();
    assert Bytes(0) == s[4 * n..4 * n + 4];
    HoldsNext(w, s, n, 0);
  }

  lemma HoldsBlock(w: seq<Word>, s: seq<Byte>, before: seq<Byte>)
    requires Holds(w, s, 16) && |before| % 64 == 0
    ensures Block(Chain(before), w) == Chain(before + s)
  {
    hide Bytes, Block, Chain, Words;
    ReadsWords(w, s);
    ChainBlock(before, s);
  }

  /** Bitwise or. */
  function Or(a: nat, b: nat): nat {
    if a == 0 && b == 0 then 0 else 2 * Or(a / 2, b / 2) + (if a % 2 == 1 || b % 2 == 1 then 1 else 0)
  }

  lemma {:induction false} OrZero(a: nat)
    ensures Or(a, 0) == a
  {
    if a > 0 {
      OrZero(a / 2);
    }
  }

  /** Where no bits meet, or is a sum. */
  lemma OrAdds(a: nat, b: nat)
    requires a % 8 == 0 && b < 8
    ensures Or(a, b) == a + b
  {
    OrZero(a / 8);
    assert b / 2 / 2 / 2 == 0 && a / 2 / 2 / 2 == a / 8;
    assert Or(a / 2 / 2, b / 2 / 2) == a / 4 + b / 4;
    assert Or(a / 2, b / 2) == a / 2 + b / 2;
  }

  /** The count in two words, shifted left by three bits. */
  function HighBits(count0: nat, count1: nat): nat {
    Or(8 * count1 % WORD, count0 / 0x2000_0000)
  }

  function LowBits(count0: nat): nat {
    8 * count0 % WORD
  }

  /** The count shifted left by three is the length in bits. */
  lemma LengthWords(n: nat)
    ensures WordOf(HighBits(n % WORD, n / WORD % WORD)) == WordOf(8 * n / WORD)
    ensures WordOf(LowBits(n % WORD)) == WordOf(8 * n)
  {
    var q, r := n / WORD, n % WORD;
    assert 8 * n / WORD == 8 * q + 8 * r / WORD;
    assert 8 * r / WORD == r / 0x2000_0000;
    assert 8 * (q % WORD) == 8 * q - (8 * (q / WORD)) * WORD;
    HighSum(r, q % WORD);
    SameWord(8 * (q % WORD) + r / 0x2000_0000, 8 * (q / WORD));
    SameWord(8 * r, 8 * q);
    SameWord(8 * r % WORD, 8 * r / WORD);
  }

  lemma HighSum(count0: nat, count1: nat)
    requires count0 < WORD
    ensures WordOf(HighBits(count0, count1)) == WordOf(8 * count1 + count0 / 0x2000_0000)
  {
    hide WordOf, Or;
    var x, t := 8 * count1, count0 / 0x2000_0000;
    LowThree(count1);
    OrAdds(x % WORD, t);
    SameWord(x % WORD + t, x / WORD);
    assert x % WORD + t + x / WORD * WORD == x + t;
  }

  lemma LowThree(n: nat)
    ensures 8 * n % WORD % 8 == 0
  {
  }

  lemma SameWord(n: nat, k: nat)
    ensures WordOf(n + k * WORD) == WordOf(n)
  {
    var m := n + k * WORD;
    SameRemainder(n, k);
    assert m % WORD == n % WORD;
  }

  lemma SameRemainder(n: nat, k: nat)
    ensures (n + k * WORD) % WORD == n % WORD
  {
  }

  // ------------------------------------------------------------- the byte count

  /** The two words of the byte count after another len bytes, as sha1_hash computes them:
      it carries one when the low word is below the length that was added. */
  function NextCount(count0: nat, count1: nat, len: nat): (nat, nat) {
    var low := (count0 + len) % WORD;
    (low, if low < len then (count1 + 1) % WORD else count1)
  }

  /** A piece of len bytes after n bytes that the count gets right. */
  predicate Carries(n: nat, len: nat) {
    len < WORD || n % WORD + len < 2 * WORD
  }

  /** The low word is always right; the high word is right if and only if the piece is below
      2^32 bytes or its sum with the low word below 2^33. */
  lemma CarryExact(count0: nat, count1: nat, len: nat)
    requires count0 < WORD && count1 < WORD && len < WORD * WORD
    ensures var (low, high) := NextCount(count0, count1, len);
            && low == (count0 + len) % WORD && high < WORD
            && (high == (count1 + (count0 + len) / WORD) % WORD <==> Carries(count0, len))
  {
  }

  /** One piece of 2^33 bytes from an empty message: the count is 2^32. */
  lemma CarryLost()
    ensures NextCount(0, 0, 2 * WORD) == (0, 1) && !Carries(0, 2 * WORD)
    ensures 1 != 2 * WORD / WORD % WORD
  {
  }

  class Context {
    const little: bool
    const wbuf: array<Word>
    var count0: nat
    var count1: nat
    var hash: Regs

    /** The bytes of msg have been hashed so far. */
    ghost predicate Buffered(msg: seq<Byte>)
      reads this, wbuf
    {
      wbuf.Length == 16 && count0 == |msg| % WORD && count1 < WORD && Absorbed(little, hash, wbuf[..], msg)
    }

    /** The upper half of the byte count is right too. */
    ghost predicate Counted(msg: seq<Byte>)
      reads this
    {
      count1 == |msg| / WORD % WORD
    }

    constructor (little: bool)
      ensures this.little == little && wbuf.Length == 16 && fresh(wbuf)
    {
      this.little := little;
      wbuf := new Word[16];
    }

    method Begin()
      requires wbuf.Length == 16
      modifies this
      ensures Buffered([]) && Counted([])
    {
      count0, count1 := 0, 0;
      hash := Regs(0x67452301, 0xefcdab89, 0x98badcfe, 0x10325476, 0xc3d2e1f0);
    }

    /** memcpy of data[from..from + n] to byte pos of the buffer. */
    method Copy(pos: nat, data: seq<Byte>, from: nat, n: nat)
      requires wbuf.Length == 16 && pos + n <= 64 && from + n <= |data|
      modifies wbuf
      ensures Copied(little, old(wbuf[..]), wbuf[..], pos, data[from..from + n])
    {
      hide MemByte;
      for k := 0 to n
        invariant Copied(little, old(wbuf[..]), wbuf[..], pos, data[from..from + k])
      {
        var p := pos + k;
        SetMem(little, wbuf[..], p, data[from + k]);
        wbuf[p / 4] := SetByte(little, wbuf[p / 4], p % 4, data[from + k]);
      }
    }

    /** bsw_32: the first n words are turned so that their first byte is the highest. */
    method SwapWords(n: nat)
      requires wbuf.Length == 16 && n <= 16
      modifies wbuf
      ensures forall p :: 0 <= p < 4 * n ==> Bytes(wbuf[p / 4])[p % 4] == old(MemByte(little, wbuf[..], p))
      ensures forall k :: n <= k < 16 ==> wbuf[k] == old(wbuf[k])
    {
      if little {
        var i := n;
        while i > 0
          invariant 0 <= i <= n
          invariant forall k :: 0 <= k < i || n <= k < 16 ==> wbuf[k] == old(wbuf[k])
          invariant forall k :: i <= k < n ==> wbuf[k] == Bswap(old(wbuf[k]))
        {
          hide Bswap;
          i := i - 1;
          wbuf[i] := Bswap(wbuf[i]);
        }
        forall p | 0 <= p < 4 * n ensures Bytes(wbuf[p / 4])[p % 4] == old(MemByte(little, wbuf[..], p)) {
          hide Bswap, Bytes;
          BswapIs(old(wbuf[p / 4]));
        }
      }
    }

    /** The byte count after another len bytes: its low word is right, and its high word is
        right if and only if the carry is. */
    method Count(len: nat)
      requires count0 < WORD && count1 < WORD && len < WORD * WORD
      modifies this`count0, this`count1
      ensures count0 == (old(count0) + len) % WORD && count1 < WORD
      ensures count1 == (old(count1) + (old(count0) + len) / WORD) % WORD <==> Carries(old(count0), len)
      ensures (count0, count1) == NextCount(old(count0), old(count1), len)
    {
      CarryExact(count0, count1, len);
      count0 := (count0 + len) % WORD;
      if count0 < len {
        count1 := (count1 + 1) % WORD;
      }
    }

    /** The byte count in terms of the message. */
    method CountPiece(len: nat, ghost msg: seq<Byte>, ghost data: seq<Byte>)
      requires count0 == |msg| % WORD && count1 < WORD && len == |data| < WORD * WORD
      modifies this`count0, this`count1
      ensures count0 == |msg + data| % WORD && count1 < WORD
      ensures old(Counted(msg)) ==> (Counted(msg + data) <==> Carries(|msg|, |data|))
    {
      hide NextCount, Carries;
      CountAfter(msg, data, count0, count1);
      Count(len);
    }

    method Hash(data: seq<Byte>, ghost msg: seq<Byte>)
      requires Buffered(msg) && |data| < WORD * WORD
      modifies this, wbuf
      ensures Buffered(msg + data)
      ensures old(Counted(msg)) ==>
                (Counted(msg + data) <==> Carries(|msg|, |data|))
    {
      hide Absorbed, Chain, MemByte, Copied, Block, Rest, NextCount, Carries;
      PosIsRest(msg, count0);
      var pos: nat := count0 % 64;
      var space: nat := 64 - pos;
      var sp: nat, len: nat := 0, |data|;
      CountPiece(len, msg, data);
      assert msg + data[..0] == msg;
      while len >= space
        invariant sp + len == |data| && pos + space == 64
        invariant pos == Rest(msg + data[..sp])
        invariant Absorbed(little, hash, wbuf[..], msg + data[..sp])
        modifies this`hash, wbuf
        decreases len
      {
        ghost var w, part := wbuf[..], data[sp..sp + space];
        Copy(pos, data, sp, space);
        ghost var w' := wbuf[..];
        SwapWords(16);
        AbsorbBlock(little, hash, w, w', msg + data[..sp], part, wbuf[..]);
        assert msg + data[..sp] + part == msg + data[..sp + space];
        sp, len, space, pos := sp + space, len - space, 64, 0;
        hash := Compile(hash, wbuf);
        AbsorbedWhole(little, wbuf[..], msg + data[..sp]);
      }
      ghost var w := wbuf[..];
      Copy(pos, data, sp, len);
      AbsorbPart(little, hash, w, wbuf[..], msg + data[..sp], data[sp..sp + len]);
      assert msg + data[..sp] + data[sp..sp + len] == msg + data;
    }

    /** Writes the first padding byte and turns the words up to it. */
    method MarkTail(i: nat, ghost s: seq<Byte>)
      requires wbuf.Length == 16 && i < 64 && |s| == 64
      requires forall p :: 0 <= p < i ==> MemByte(little, wbuf[..], p) == s[p]
      requires s[i] == 0x80 && forall p :: i < p < 4 * (i / 4) + 4 ==> s[p] == 0
      modifies wbuf
      ensures Holds(wbuf[..], s, i / 4 + 1)
    {
      hide Bytes, Marked, MemByte;
      SwapWords((i + 3) / 4);
      var k := i / 4;
      MarkIs(wbuf[k], i % 4);
      ghost var w := wbuf[..];
      wbuf[k] := Marked(wbuf[k], i % 4);
      forall p | 0 <= p < 4 * (k + 1) ensures Bytes(wbuf[p / 4])[p % 4] == s[p] {
        if p < 4 * k {
          assert p / 4 < k;
        } else {
          assert p / 4 == k && (p % 4 < i % 4 <==> p < i) && (p % 4 == i % 4 <==> p == i);
        }
      }
    }

    /** Zero words up to the length, the length, and the last block. */
    method FillAndFinish(from: nat, ghost before: seq<Byte>, ghost s: seq<Byte>, ghost n: nat)
      requires wbuf.Length == 16 && |s| == 64 && from <= 14 && Holds(wbuf[..], s, from)
      requires (forall p :: 4 * from <= p < 56 ==> s[p] == 0) && s[56..] == Length(n)
      requires |before| % 64 == 0 && hash == Chain(before)
      requires count0 == n % WORD && count1 == n / WORD % WORD
      modifies this`hash, wbuf
      ensures hash == Chain(before + s)
    {
      hide Holds, Chain, Block, Bytes, WordOf, HighBits, LowBits;
      var i := from;
      while i < 14
        invariant from <= i <= 14 && Holds(wbuf[..], s, i)
        modifies wbuf
      {
        HoldsZero(wbuf[..], s, i);
        wbuf[i] := 0;
        i := i + 1;
      }
      LengthWords(n);
      var high, low := WordOf(HighBits(count0, count1)), WordOf(LowBits(count0));
      assert Bytes(high) == s[56..][..4] == s[56..60];
      assert Bytes(low) == s[56..][4..] == s[60..64];
      HoldsNext(wbuf[..], s, 14, high);
      wbuf[14] := high;
      HoldsNext(wbuf[..], s, 15, low);
      wbuf[15] := low;
      HoldsBlock(wbuf[..], s, before);
      hash := Compile(hash, wbuf);
    }

    /** No room for the length: the padding byte and zeros make a block of their own. */
    method ExtraBlock(i: nat, ghost before: seq<Byte>, ghost tail: seq<Byte>)
      requires wbuf.Length == 16 && 55 < i < 64 && |tail| == i
      requires forall p :: 0 <= p < i ==> MemByte(little, wbuf[..], p) == tail[p]
      requires |before| % 64 == 0 && hash == Chain(before)
      modifies this`hash, wbuf
      ensures hash == Chain(before + (tail + [0x80] + Zeros(63 - i)))
    {
      hide Chain, Block, Bytes, MemByte, Holds;
      ghost var s := tail + [0x80] + Zeros(63 - i);
      MarkTail(i, s);
      if i < 60 {
        HoldsZero(wbuf[..], s, 15);
        wbuf[15] := 0;
      }
      HoldsBlock(wbuf[..], s, before);
      hash := Compile(hash, wbuf);
    }

    /** Room for the padding byte and the length in one block. */
    method LastBlock(i: nat, ghost before: seq<Byte>, ghost tail: seq<Byte>, ghost n: nat)
      requires wbuf.Length == 16 && i <= 55 && |tail| == i
      requires forall p :: 0 <= p < i ==> MemByte(little, wbuf[..], p) == tail[p]
      requires |before| % 64 == 0 && hash == Chain(before)
      requires count0 == n % WORD && count1 == n / WORD % WORD
      modifies this`hash, wbuf
      ensures hash == Chain(before + (tail + [0x80] + Zeros(55 - i) + Length(n)))
    {
      hide Chain, Block, Bytes, WordOf, MemByte, Holds, Length;
      ghost var s := tail + [0x80] + Zeros(55 - i) + Length(n);
      MarkTail(i, s);
      FillAndFinish(i / 4 + 1, before, s, n);
    }

    /** No such room: a second block holds zeros and the length. */
    method LastTwoBlocks(i: nat, ghost before: seq<Byte>, ghost tail: seq<Byte>, ghost n: nat)
      requires wbuf.Length == 16 && 55 < i < 64 && |tail| == i
      requires forall p :: 0 <= p < i ==> MemByte(little, wbuf[..], p) == tail[p]
      requires |before| % 64 == 0 && hash == Chain(before)
      requires count0 == n % WORD && count1 == n / WORD % WORD
      modifies this`hash, wbuf
      ensures hash == Chain(before + (tail + [0x80] + Zeros(63 - i)) + (Zeros(56) + Length(n)))
    {
      hide Chain, Block, Bytes, WordOf, MemByte, Holds, Length;
      ExtraBlock(i, before, tail);
      ghost var s := Zeros(56) + Length(n);
      HoldsNothing(wbuf[..], s);
      FillAndFinish(0, before + (tail + [0x80] + Zeros(63 - i)), s, n);
    }

    /** The chaining value after the padding. */
    method Finish(ghost msg: seq<Byte>)
      requires Buffered(msg) && Counted(msg)
      modifies this`hash, wbuf
      ensures hash == Chain(msg + Padding(|msg|))
    {
      hide Chain, Block, Bytes, WordOf, MemByte, Holds, Rest, Length, Padding, Zeros;
      ghost var n := |msg|;
      ghost var before, tail := msg[..n - Rest(msg)], msg[n - Rest(msg)..];
      PosIsRest(msg, count0);
      PaddingShape(msg);
      var i := count0 % 64;
      if i > 64 - 9 {
        LastTwoBlocks(i, before, tail, n);
      } else {
        LastBlock(i, before, tail, n);
      }
    }

    /** sha1_end: the digest of everything hashed since sha1_begin. */
    method End(hval: array<Byte>, ghost msg: seq<Byte>)
      requires Buffered(msg) && Counted(msg) && hval.Length >= 20
      modifies this, wbuf, hval
      ensures hval[..20] == Digest(msg) && hval[20..] == old(hval[20..])
    {
      hide Chain, Bytes, Padding, Nth;
      Finish(msg);
      ghost var d := Digest(msg);
      for i := 0 to 20
        invariant hval[..i] == d[..i] && hval[20..] == old(hval[20..])
        modifies hval
      {
        DigestAt(hash, i);
        hval[i] := Bytes(Nth(hash, i / 4))[i % 4];
      }
    }
  }

  function Nth(h: Regs, i: nat): Word {
    if i == 0 then h.a else if i == 1 then h.b else if i == 2 then h.c else if i == 3 then h.d else h.e
  }

  lemma DigestAt(h: Regs, i: nat)
    requires i < 20
    ensures (Bytes(h.a) + Bytes(h.b) + Bytes(h.c) + Bytes(h.d) + Bytes(h.e))[i] == Bytes(Nth(h, i / 4))[i % 4]
  {
    hide Bytes;
  }

  /** The padded message, block by block. */
  lemma PaddingShape(msg: seq<Byte>)
    ensures var n, i := |msg|, Rest(msg);
            var before, tail := msg[..n - i], msg[n - i..];
            && |before| % 64 == 0
            && (i > 55 ==> before + (tail + [0x80] + Zeros(63 - i)) + (Zeros(56) + Length(n)) == msg + Padding(n))
            && (i <= 55 ==> before + (tail + [0x80] + Zeros(55 - i) + Length(n)) == msg + Padding(n))
  {
    hide Length;
    var n, i := |msg|, Rest(msg);
    if i > 55 {
      assert Zeros(Fill(n)) == Zeros(63 - i) + Zeros(56);
    }
  }

  lemma PosIsRest(msg: seq<Byte>, count0: nat)
    requires count0 == |msg| % WORD
    ensures count0 % 64 == Rest(msg)
  {
  }

  lemma CountAfter(msg: seq<Byte>, data: seq<Byte>, count0: nat, count1: nat)
    requires count0 == |msg| % WORD && count1 < WORD && |data| < WORD * WORD
    ensures NextCount(count0, count1, |data|).0 == |msg + data| % WORD && NextCount(count0, count1, |data|).1 < WORD
    ensures count1 == |msg| / WORD % WORD ==>
              (NextCount(count0, count1, |data|).1 == |msg + data| / WORD % WORD <==> Carries(|msg|, |data|))
  {
    CarryExact(count0, count1, |data|);
    CountSum(msg, data, count0, count1);
    hide NextCount;
  }

  lemma CountSum(msg: seq<Byte>, data: seq<Byte>, count0: nat, count1: nat)
    requires count0 == |msg| % WORD
    ensures (count0 + |data|) % WORD == |msg + data| % WORD
    ensures count1 == |msg| / WORD % WORD ==>
              (count1 + (count0 + |data|) / WORD) % WORD == |msg + data| / WORD % WORD
  {
  }

  /** The pieces of a message, in order. */
  function Concat(pieces: seq<seq<Byte>>): seq<Byte> {
    if pieces == [] then [] else Concat(pieces[..|pieces| - 1]) + pieces[|pieces| - 1]
  }

  /** However a message is cut into calls of sha1_hash that the count gets right, the digest is
      that of the whole. */
  method Stream(little: bool, pieces: seq<seq<Byte>>) returns (digest: seq<Byte>)
    requires forall k :: 0 <= k < |pieces| ==> |pieces[k]| < WORD * WORD && Carries(|Concat(pieces[..k])|, |pieces[k]|)
    ensures digest == Digest(Concat(pieces))
  {
    hide Digest;
    var ctx := new Context(little);
    ctx.Begin();
    for k := 0 to |pieces|
      invariant ctx.Buffered(Concat(pieces[..k])) && ctx.Counted(Concat(pieces[..k]))
    {
      ctx.Hash(pieces[k], Concat(pieces[..k]));
      assert pieces[..k + 1][..k] == pieces[..k];
    }
    assert pieces[..|pieces|] == pieces;
    var hval := new Byte[20];
    ctx.End(hval, Concat(pieces));
    digest := hval[..20];
  }
}
