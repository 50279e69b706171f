/**
 The algebra of OptimizedStrassenMultiply (benchmarks/strassen/strassen-lace.c): with the
 eight sums of quadrants that it forms, its seven products give the four quadrants of the
 product.
 */
module Winograd {
  import opened MatrixSpec

  /** The sums of quadrants of A and of B that the algorithm multiplies. */
  datatype Sums = Sums(s1: Matrix, s2: Matrix, s3: Matrix, s4: Matrix, s5: Matrix, s6: Matrix, s7: Matrix, s8: Matrix)

  ghost predicate SumsAt(x: Matrix, a: Corner, y: Matrix, b: Corner, h: nat, s: Sums, i: nat, j: nat) {
    var a11, a12 := At(x, a.r + i, a.c + j), At(x, a.r + i, a.c + h + j);
    var a21, a22 := At(x, a.r + h + i, a.c + j), At(x, a.r + h + i, a.c + h + j);
    var b11, b12 := At(y, b.r + i, b.c + j), At(y, b.r + i, b.c + h + j);
    var b21, b22 := At(y, b.r + h + i, b.c + j), At(y, b.r + h + i, b.c + h + j);
    && At(s.s1, i, j) == a21 + a22 && At(s.s2, i, j) == a21 + a22 - a11
    && At(s.s3, i, j) == a11 - a21 && At(s.s4, i, j) == a12 - (a21 + a22 - a11)
    && At(s.s5, i, j) == b12 - b11 && At(s.s6, i, j) == b22 - (b12 - b11)
    && At(s.s7, i, j) == b22 - b12 && At(s.s8, i, j) == b22 - (b12 - b11) - b21
  }

  ghost predicate SumsOf(x: Matrix, a: Corner, y: Matrix, b: Corner, h: nat, s: Sums) {
    forall i: nat, j: nat :: i < h && j < h ==> SumsAt(x, a, y, b, h, s, i, j)
  }

  function Times(x: real, y: real): real {
    x * y
  }

  /** Winograd's identities for one element of each quadrant. */
  lemma Scalars(a11: real, a12: real, a21: real, a22: real, b11: real, b12: real, b21: real, b22: real,
                s1: real, s2: real, s3: real, s4: real, s5: real, s6: real, s7: real, s8: real)
    requires s1 == a21 + a22 && s2 == a21 + a22 - a11 && s3 == a11 - a21 && s4 == a12 - (a21 + a22 - a11)
    requires s5 == b12 - b11 && s6 == b22 - (b12 - b11) && s7 == b22 - b12 && s8 == b22 - (b12 - b11) - b21
    ensures Times(s4, b22) + Times(s1, s5) + (Times(s2, s6) + Times(a11, b11)) == Times(a11, b12) + Times(a12, b22)
    ensures Times(s1, s5) + (Times(s3, s7) + (Times(s2, s6) + Times(a11, b11))) == Times(a21, b12) + Times(a22, b22)
    ensures -Times(a22, s8) + (Times(s3, s7) + (Times(s2, s6) + Times(a11, b11))) == Times(a21, b11) + Times(a22, b21)
  {
  }

  function Move(k: Corner, dr: nat, dc: nat): Corner {
    Corner(k.r + dr, k.c + dc)
  }

  const ORIGIN := Corner(0, 0)

  /** The eleven sums of products that occur, over the first n elements of row i and column j. */
  datatype Dots = Dots(m2: real, m5: real, t1: real, t2: real, c12: real, c21: real,
                       a11b12: real, a12b22: real, a21b12: real, a22b22: real, a21b11: real, a22b21: real)

  ghost function DotsOf(x: Matrix, a: Corner, y: Matrix, b: Corner, h: nat, s: Sums, i: nat, j: nat, n: nat): Dots {
    Dots(Dot(x, a, y, b, i, j, n), Dot(s.s1, ORIGIN, s.s5, ORIGIN, i, j, n),
         Dot(s.s2, ORIGIN, s.s6, ORIGIN, i, j, n), Dot(s.s3, ORIGIN, s.s7, ORIGIN, i, j, n),
         Dot(s.s4, ORIGIN, y, Move(b, h, h), i, j, n), Dot(x, Move(a, h, h), s.s8, ORIGIN, i, j, n),
         Dot(x, a, y, Move(b, 0, h), i, j, n), Dot(x, Move(a, 0, h), y, Move(b, h, h), i, j, n),
         Dot(x, Move(a, h, 0), y, Move(b, 0, h), i, j, n), Dot(x, Move(a, h, h), y, Move(b, h, h), i, j, n),
         Dot(x, Move(a, h, 0), y, b, i, j, n), Dot(x, Move(a, h, h), y, Move(b, h, 0), i, j, n))
  }

  predicate Identities(d: Dots) {
    && d.c12 + d.m5 + (d.t1 + d.m2) == d.a11b12 + d.a12b22
    && d.m5 + (d.t2 + (d.t1 + d.m2)) == d.a21b12 + d.a22b22
    && -d.c21 + (d.t2 + (d.t1 + d.m2)) == d.a21b11 + d.a22b21
  }

  /** The products that the last element adds. */
  ghost function Terms(x: Matrix, a: Corner, y: Matrix, b: Corner, h: nat, s: Sums, i: nat, j: nat, k: nat): Dots {
    var a11, a12 := At(x, a.r + i, a.c + k), At(x, a.r + i, a.c + h + k);
    var a21, a22 := At(x, a.r + h + i, a.c + k), At(x, a.r + h + i, a.c + h + k);
    var b11, b12 := At(y, b.r + k, b.c + j), At(y, b.r + k, b.c + h + j);
    var b21, b22 := At(y, b.r + h + k, b.c + j), At(y, b.r + h + k, b.c + h + j);
    Dots(Times(a11, b11), Times(At(s.s1, i, k), At(s.s5, k, j)), Times(At(s.s2, i, k), At(s.s6, k, j)),
         Times(At(s.s3, i, k), At(s.s7, k, j)), Times(At(s.s4, i, k), b22), Times(a22, At(s.s8, k, j)),
         Times(a11, b12), Times(a12, b22), Times(a21, b12), Times(a22, b22), Times(a21, b11), Times(a22, b21))
  }

  function Plus(d: Dots, e: Dots): Dots {
    Dots(d.m2 + e.m2, d.m5 + e.m5, d.t1 + e.t1, d.t2 + e.t2, d.c12 + e.c12, d.c21 + e.c21,
         d.a11b12 + e.a11b12, d.a12b22 + e.a12b22, d.a21b12 + e.a21b12, d.a22b22 + e.a22b22,
         d.a21b11 + e.a21b11, d.a22b21 + e.a22b21)
  }

  lemma TermsFit(x: Matrix, a: Corner, y: Matrix, b: Corner, h: nat, s: Sums, i: nat, j: nat, k: nat)
    requires SumsAt(x, a, y, b, h, s, i, k) && SumsAt(x, a, y, b, h, s, k, j)
    ensures Identities(Terms(x, a, y, b, h, s, i, j, k))
  {
    hide At, Times;
    Scalars(At(x, a.r + i, a.c + k), At(x, a.r + i, a.c + h + k), At(x, a.r + h + i, a.c + k), At(x, a.r + h + i, a.c + h + k),
            At(y, b.r + k, b.c + j), At(y, b.r + k, b.c + h + j), At(y, b.r + h + k, b.c + j), At(y, b.r + h + k, b.c + h + j),
            At(s.s1, i, k), At(s.s2, i, k), At(s.s3, i, k), At(s.s4, i, k),
            At(s.s5, k, j), At(s.s6, k, j), At(s.s7, k, j), At(s.s8, k, j));
  }

  lemma DotsNext(x: Matrix, a: Corner, y: Matrix, b: Corner, h: nat, s: Sums, i: nat, j: nat, k: nat)
    ensures DotsOf(x, a, y, b, h, s, i, j, k + 1)
         == Plus(DotsOf(x, a, y, b, h, s, i, j, k), Terms(x, a, y, b, h, s, i, j, k))
  {
    hide At;
  }

  lemma PlusFits(d: Dots, e: Dots)
    requires Identities(d) && Identities(e)
    ensures Identities(Plus(d, e))
  {
  }

  /** Winograd's identities for the sums over the first n elements of row i and column j. */
  lemma {:induction false} SumIdentities(x: Matrix, a: Corner, y: Matrix, b: Corner, h: nat, s: Sums, i: nat, j: nat, n: nat)
    requires SumsOf(x, a, y, b, h, s) && i < h && j < h && n <= h
    ensures Identities(DotsOf(x, a, y, b, h, s, i, j, n))
    decreases n
  {
    if n > 0 {
      hide At, SumsAt, Dot, Terms, Plus, Identities;
      SumIdentities(x, a, y, b, h, s, i, j, n - 1);
      TermsFit(x, a, y, b, h, s, i, j, n - 1);
      PlusFits(DotsOf(x, a, y, b, h, s, i, j, n - 1), Terms(x, a, y, b, h, s, i, j, n - 1));
      DotsNext(x, a, y, b, h, s, i, j, n - 1);
    }
  }

  /** The product, quadrant by quadrant. */
  lemma QuadrantDots(x: Matrix, a: Corner, y: Matrix, b: Corner, h: nat, i: nat, j: nat)
    ensures Dot(x, a, y, b, i, j, 2 * h) == Dot(x, a, y, b, i, j, h) + Dot(x, Move(a, 0, h), y, Move(b, h, 0), i, j, h)
    ensures Dot(x, a, y, b, i, h + j, 2 * h)
         == Dot(x, a, y, Move(b, 0, h), i, j, h) + Dot(x, Move(a, 0, h), y, Move(b, h, h), i, j, h)
    ensures Dot(x, a, y, b, h + i, j, 2 * h)
         == Dot(x, Move(a, h, 0), y, b, i, j, h) + Dot(x, Move(a, h, h), y, Move(b, h, 0), i, j, h)
    ensures Dot(x, a, y, b, h + i, h + j, 2 * h)
         == Dot(x, Move(a, h, 0), y, Move(b, 0, h), i, j, h) + Dot(x, Move(a, h, h), y, Move(b, h, h), i, j, h)
  {
    hide Dot;
    DotSplit(x, a, y, b, i, j, h, h);
    DotSplit(x, a, y, b, i, h + j, h, h);
    DotSplit(x, a, y, b, h + i, j, h, h);
    DotSplit(x, a, y, b, h + i, h + j, h, h);
    DotShift(x, a, y, b, i, j, h, 0, h);
    DotShift(x, a, y, b, i, j, h, h, 0);
    DotShift(x, a, y, b, i, j, h, h, h);
    DotShift(x, Move(a, 0, h), y, Move(b, h, 0), i, j, h, 0, h);
    DotShift(x, Move(a, 0, h), y, Move(b, h, 0), i, j, h, h, 0);
    DotShift(x, Move(a, 0, h), y, Move(b, h, 0), i, j, h, h, h);
  }
}
