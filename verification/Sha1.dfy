/**
 The SHA-1 of the UTS random number generator (benchmarks/uts/rng/brg_sha1.c).
 */
module Sha1 {
  import opened Sha1Spec

  // ---------------------------------------------------------------- one block

  datatype Fn = Ch | Parity | Maj

  function Rotr2(x: Word): Word { (x >> 2) | (x << 30) }

  function Rotl1(x: Word): Word { (x << 1) | (x >> 31) }

  function Rotr27(x: Word): Word { (x >> 27) | (x << 5) }

  function Apply(f: Fn, x: Word, y: Word, z: Word): Word {
    match f
    case Ch => z ^ (x & (y ^ z))
    case Parity => x ^ y ^ z
    case Maj => (x & y) | (z & (x ^ y))
  }

  /** f and k are what rounds i to i + 4 use. */
  predicate Stage(f: Fn, k: Word, i: nat) {
    && i % 5 == 0 && i < 80 && k == K(i)
    && f == (if i < 20 then Ch else if i < 40 then Parity else if i < 60 then Maj else Parity)
  }

  lemma ChIs(x: Word, y: Word, z: Word)
    ensures z ^ (x & (y ^ z)) == (x & y) | (!x & z)
  {
  }

  lemma MajIs(x: Word, y: Word, z: Word)
    ensures (x & y) | (z & (x ^ y)) == (x & y) | (x & z) | (y & z)
  {
  }

  /** The rewritten logical functions are those of section 5 of RFC 3174. */
  lemma ApplyIsF(f: Fn, k: Word, i: nat, t: nat, x: Word, y: Word, z: Word)
    requires Stage(f, k, i) && i <= t < i + 5
    ensures Apply(f, x, y, z) == F(t, x, y, z) && k == K(t)
  {
    ChIs(x, y, z);
    MajIs(x, y, z);
  }

  /** The sixteen words of the circular buffer before round t. */
  ghost predicate Window(w: seq<Word>, m: seq<Word>, t: nat) {
    && |w| == 16 && |m| == 16
    && var lo := if t < 16 then 0 else t - 16;
       forall j :: lo <= j < lo + 16 ==> w[j % 16] == Sched(m, j)
  }

  lemma SchedStep(m: seq<Word>, i: nat)
    requires |m| == 16 && i >= 16
    ensures Sched(m, i) == Mix(Sched(m, i - 3), Sched(m, i - 8), Sched(m, i - 14), Sched(m, i - 16))
  {
    hide Mix;
  }

  /** The word that goes into the schedule next. */
  function NextWord(w: seq<Word>, i: nat): Word
    requires |w| == 16
  {
    Rotl1(w[(i + 13) % 16] ^ w[(i + 8) % 16] ^ w[(i + 2) % 16] ^ w[i % 16])
  }

  lemma MixIs(x: Word, y: Word, z: Word, u: Word)
    ensures Rotl1(x ^ y ^ z ^ u) == Mix(x, y, z, u)
  {
  }

  lemma Around(i: nat)
    requires i >= 16
    ensures (i + 13) % 16 == (i - 3) % 16 && (i + 8) % 16 == (i - 8) % 16
    ensures (i + 2) % 16 == (i - 14) % 16 && i % 16 == (i - 16) % 16
  {
  }

  lemma NextWordIs(w: seq<Word>, m: seq<Word>, i: nat)
    requires Window(w, m, i) && i >= 16
    ensures NextWord(w, i) == Sched(m, i)
  {
    hide Sched, Mix, Rotl1;
    SchedStep(m, i);
    MixIs(w[(i + 13) % 16], w[(i + 8) % 16], w[(i + 2) % 16], w[i % 16]);
    Around(i);
    assert w[(i - 3) % 16] == Sched(m, i - 3);
    assert w[(i - 8) % 16] == Sched(m, i - 8);
    assert w[(i - 14) % 16] == Sched(m, i - 14);
    assert w[(i - 16) % 16] == Sched(m, i - 16);
  }

  lemma WindowSlides(w: seq<Word>, m: seq<Word>, i: nat)
    requires Window(w, m, i) && i >= 16
    ensures Window(w[i % 16 := Sched(m, i)], m, i + 1)
  {
    hide Sched;
    var w' := w[i % 16 := Sched(m, i)];
    forall j | i - 15 <= j < i + 1 ensures w'[j % 16] == Sched(m, j) {
      assert j < i ==> w[j % 16] == Sched(m, j);
    }
  }

  /** Word i of the schedule: from the block, or made in place of the one sixteen before it. */
  method Fetch(w: array<Word>, i: nat, ghost m: seq<Word>) returns (h: Word)
    requires Window(w[..], m, i)
    modifies w
    ensures Window(w[..], m, i + 1)
    ensures h == Sched(m, i)
  {
    hide Sched, NextWord;
    if i < 16 {
      assert w[..][i % 16] == Sched(m, i);
      h := w[i];
    } else {
      NextWordIs(w[..], m, i);
      WindowSlides(w[..], m, i);
      w[i % 16] := NextWord(w[..], i);
      h := w[i % 16];
    }
  }

  /** The five registers under the names they have in the current round. */
  function View(v: seq<Word>, a: nat, b: nat, c: nat, d: nat, e: nat): Regs
    requires |v| == 5 && a < 5 && b < 5 && c < 5 && d < 5 && e < 5
  {
    Regs(v[a], v[b], v[c], v[d], v[e])
  }

  /** What one_cycle adds to its fifth register, in the order it adds it. */
  function Gather(e: Word, x: Word, y: Word, k: Word, h: Word): Word { e + (x + y + k + h) }

  lemma SumOrder(e: Word, x: Word, y: Word, k: Word, h: Word)
    ensures Gather(e, x, y, k, h) == Sum(x, y, e, h, k)
  {
  }

  lemma RotationsAgree(x: Word)
    ensures Rotr27(x) == S5(x) && Rotr2(x) == S30(x)
  {
  }

  /** What the fifth register becomes. */
  function Mixed(r: Regs, f: Fn, k: Word, h: Word): Word {
    Gather(r.e, Rotr27(r.a), Apply(f, r.b, r.c, r.d), k, h)
  }

  lemma CycleIs(r: Regs, f: Fn, k: Word, h: Word, i: nat, t: nat)
    requires Stage(f, k, i) && i <= t < i + 5
    ensures Cycle(r, t, h) == Regs(Mixed(r, f, k, h), r.a, Rotr2(r.b), r.c, r.d)
  {
    hide Gather, Sum, Apply, F, K, Rotr27, Rotr2, S5, S30;
    ApplyIsF(f, k, i, t, r.b, r.c, r.d);
    RotationsAgree(r.a);
    RotationsAgree(r.b);
    SumOrder(r.e, Rotr27(r.a), Apply(f, r.b, r.c, r.d), k, h);
  }

  /** One round: only two registers change, and every name moves on by one. */
  method OneCycle(v: array<Word>, a: nat, b: nat, c: nat, d: nat, e: nat, f: Fn, k: Word, h: Word,
                  ghost i: nat, ghost t: nat)
    requires v.Length == 5 && {a, b, c, d, e} == {0, 1, 2, 3, 4}
    requires Stage(f, k, i) && i <= t < i + 5
    modifies v
    ensures View(v[..], e, a, b, c, d) == Cycle(old(View(v[..], a, b, c, d, e)), t, h)
  {
    hide Mixed, Cycle, Rotr2;
    Distinct(a, b, c, d, e);
    ghost var r := View(v[..], a, b, c, d, e);
    CycleIs(r, f, k, h, i, t);
    v[e] := Mixed(Regs(v[a], v[b], v[c], v[d], v[e]), f, k, h);
    v[b] := Rotr2(v[b]);
  }

  lemma Distinct(a: nat, b: nat, c: nat, d: nat, e: nat)
    requires {a, b, c, d, e} == {0, 1, 2, 3, 4}
    ensures a < 5 && b < 5 && c < 5 && d < 5 && e < 5
    ensures a != b && a != c && a != d && a != e && b != c && b != d && b != e && c != d && c != e && d != e
  {
    var s := {a, b, c, d, e};
    assert a in s && b in s && c in s && d in s && e in s;
    assert |s| == 5;
  }

  lemma RoundStep(h: Regs, m: seq<Word>, t: nat)
    requires |m| == 16
    ensures Rounds(h, m, t + 1) == Cycle(Rounds(h, m, t), t, Sched(m, t))
  {
  }

  method FiveCycle(v: array<Word>, w: array<Word>, f: Fn, k: Word, i: nat, ghost h: Regs, ghost m: seq<Word>)
    requires v.Length == 5 && v != w && Stage(f, k, i) && Window(w[..], m, i)
    requires View(v[..], 0, 1, 2, 3, 4) == Rounds(h, m, i)
    modifies v, w
    ensures Window(w[..], m, i + 5)
    ensures View(v[..], 0, 1, 2, 3, 4) == Rounds(h, m, i + 5)
  {
    hide Cycle, Sched, K, Rounds;
    RoundStep(h, m, i);
    RoundStep(h, m, i + 1);
    RoundStep(h, m, i + 2);
    RoundStep(h, m, i + 3);
    RoundStep(h, m, i + 4);
    var x := Fetch(w, i, m);
    OneCycle(v, 0, 1, 2, 3, 4, f, k, x, i, i);
    x := Fetch(w, i + 1, m);
    OneCycle(v, 4, 0, 1, 2, 3, f, k, x, i, i + 1);
    x := Fetch(w, i + 2, m);
    OneCycle(v, 3, 4, 0, 1, 2, f, k, x, i, i + 2);
    x := Fetch(w, i + 3, m);
    OneCycle(v, 2, 3, 4, 0, 1, f, k, x, i, i + 3);
    x := Fetch(w, i + 4, m);
    OneCycle(v, 1, 2, 3, 4, 0, f, k, x, i, i + 4);
  }

  /** The twenty rounds that share a function and a constant. */
  method FourTimes(v: array<Word>, w: array<Word>, f: Fn, k: Word, i: nat, ghost h: Regs, ghost m: seq<Word>)
    requires v.Length == 5 && v != w && Stage(f, k, i) && i % 20 == 0 && Window(w[..], m, i)
    requires View(v[..], 0, 1, 2, 3, 4) == Rounds(h, m, i)
    modifies v, w
    ensures Window(w[..], m, i + 20)
    ensures View(v[..], 0, 1, 2, 3, 4) == Rounds(h, m, i + 20)
  {
    hide Rounds, Sched, Window;
    FiveCycle(v, w, f, k, i, h, m);
    FiveCycle(v, w, f, k, i + 5, h, m);
    FiveCycle(v, w, f, k, i + 10, h, m);
    FiveCycle(v, w, f, k, i + 15, h, m);
  }

  lemma CompileStart(h: Regs, m: seq<Word>)
    requires |m| == 16
    ensures Window(m, m, 0) && Rounds(h, m, 0) == h
  {
    forall j | 0 <= j < 16 ensures m[j % 16] == Sched(m, j) {
    }
  }

  /** The registers are added to the chaining value. */
  function AddTo(hash: Regs, v: seq<Word>): Regs
    requires |v| == 5
  {
    Regs(Add(hash.a, v[0]), Add(hash.b, v[1]), Add(hash.c, v[2]), Add(hash.d, v[3]), Add(hash.e, v[4]))
  }

  lemma CompileEnd(h: Regs, m: seq<Word>, v: seq<Word>)
    requires |m| == 16 && |v| == 5 && View(v, 0, 1, 2, 3, 4) == Rounds(h, m, 80)
    ensures AddTo(h, v) == Block(h, m)
  {
    hide Rounds, Add;
  }

  /** The block function of brg_sha1.c is the one of section 6.1 of RFC 3174. */
  method Compile(hash: Regs, w: array<Word>) returns (r: Regs)
    requires w.Length == 16
    modifies w
    ensures r == Block(hash, old(w[..]))
  {
    hide Rounds, Sched, Window, Block, AddTo;
    ghost var m := w[..];
    CompileStart(hash, m);
    var v := new Word[5][hash.a, hash.b, hash.c, hash.d, hash.e];
    FourTimes(v, w, Ch, 0x5a827999, 0, hash, m);
    FourTimes(v, w, Parity, 0x6ed9eba1, 20, hash, m);
    FourTimes(v, w, Maj, 0x8f1bbcdc, 40, hash, m);
    FourTimes(v, w, Parity, 0xca62c1d6, 60, hash, m);
    CompileEnd(hash, m, v[..]);
    r := AddTo(hash, v[..]);
  }
}
