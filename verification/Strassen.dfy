/**
 Strassen-Winograd multiplication (benchmarks/strassen/strassen-lace.c, the function
 OptimizedStrassenMultiply), in place and with the quadrants of the result as temporaries.
 */
module Strassen {
  import opened MatrixSpec
  import opened Planes
  import opened Matmul
  import opened StrassenKernels
  import opened StrassenSums
  import opened Winograd

  const CONQUER_SIZE: nat := 16

  // ---------------------------------------------------------------- the seven products

  /** The result matrix and the three temporaries that the seven products go into. */
  datatype Mid = Mid(p: Matrix, m2: Matrix, m5: Matrix, t1: Matrix)

  ghost predicate MidAt(x: Matrix, a: Corner, y: Matrix, b: Corner, h: nat, s: Sums, k: Corner, mid: Mid, i: nat, j: nat) {
    && At(mid.m2, i, j) == Dot(x, a, y, b, i, j, h)
    && At(mid.m5, i, j) == Dot(s.s1, ORIGIN, s.s5, ORIGIN, i, j, h)
    && At(mid.t1, i, j) == Dot(s.s2, ORIGIN, s.s6, ORIGIN, i, j, h)
    && At(mid.p, k.r + i, k.c + j) == Dot(x, Move(a, 0, h), y, Move(b, h, 0), i, j, h)
    && At(mid.p, k.r + i, k.c + h + j) == Dot(s.s4, ORIGIN, y, Move(b, h, h), i, j, h)
    && At(mid.p, k.r + h + i, k.c + j) == Dot(x, Move(a, h, h), s.s8, ORIGIN, i, j, h)
    && At(mid.p, k.r + h + i, k.c + h + j) == Dot(s.s3, ORIGIN, s.s7, ORIGIN, i, j, h)
  }

  ghost predicate MidOf(x: Matrix, a: Corner, y: Matrix, b: Corner, h: nat, s: Sums, k: Corner, mid: Mid) {
    forall i: nat, j: nat :: i < h && j < h ==> MidAt(x, a, y, b, h, s, k, mid, i, j)
  }

  ghost function Now(C: Plane, M2: Plane, M5: Plane, T1: Plane): Mid
    requires C.Valid() && M2.Valid() && M5.Valid() && T1.Valid()
    reads C.cells, M2.cells, M5.cells, T1.cells
  {
    Mid(Grid(C), Grid(M2), Grid(M5), Grid(T1))
  }

  /** What the last loop has to add up at one place of each quadrant. */
  lemma Target(x: Matrix, a: Corner, y: Matrix, b: Corner, h: nat, s: Sums, k: Corner, mid: Mid, i: nat, j: nat)
    requires SumsOf(x, a, y, b, h, s) && MidOf(x, a, y, b, h, s, k, mid) && i < h && j < h
    ensures var m2, m5, t1 := At(mid.m2, i, j), At(mid.m5, i, j), At(mid.t1, i, j) + At(mid.m2, i, j);
            var t2 := At(mid.p, k.r + h + i, k.c + h + j) + t1;
            && Dot(x, a, y, b, i, j, 2 * h) == At(mid.p, k.r + i, k.c + j) + m2
            && Dot(x, a, y, b, i, h + j, 2 * h) == At(mid.p, k.r + i, k.c + h + j) + (m5 + t1)
            && Dot(x, a, y, b, h + i, h + j, 2 * h) == m5 + t2
            && Dot(x, a, y, b, h + i, j, 2 * h) == -At(mid.p, k.r + h + i, k.c + j) + t2
  {
    hide Dot, At, SumsOf;
    QuadrantDots(x, a, y, b, h, i, j);
    SumIdentities(x, a, y, b, h, s, i, j, h);
    assert MidAt(x, a, y, b, h, s, k, mid, i, j);
  }

  function SquareJob(h: nat, k: Corner, a: Corner, b: Corner): Job {
    Job(k, h, h, false, a, b, h)
  }

  /** A product into a table of its own. */
  lemma ProductCell(was: Matrix, x: Matrix, y: Matrix, h: nat, k: Corner, a: Corner, b: Corner, i: nat, j: nat)
    requires Has(was, k.r + i, k.c + j) && i < h && j < h
    ensures At(Product(was, x, y, SquareJob(h, k, a, b)), k.r + i, k.c + j) == Dot(x, a, y, b, i, j, h)
  {
    hide Dot, Product;
    ProductAt(was, x, y, SquareJob(h, k, a, b), k.r + i, k.c + j);
  }

  /** A product elsewhere leaves the cell. */
  lemma ProductSkips(was: Matrix, x: Matrix, y: Matrix, q: Job, r: nat, c: nat)
    requires Has(was, r, c) && !Within(q.k, q.m, q.p, r, c)
    ensures Has(Product(was, x, y, q), r, c) && At(Product(was, x, y, q), r, c) == At(was, r, c)
  {
    hide Dot, Product;
    ProductAt(was, x, y, q, r, c);
  }

  /** The products that go into quadrants of the result, by their places among the seven: 3 to
      6 for C22, C11, C12 and C21. */
  ghost function Fill(i: nat, was: Matrix,
                      x: Matrix, a: Corner, y: Matrix, b: Corner, h: nat, s: Sums, k: Corner): (p: Matrix)
    ensures |p| == |was| && forall r :: 0 <= r < |was| ==> |p[r]| == |was[r]|
  {
    if i == 3 then Product(was, s.s3, s.s7, SquareJob(h, Move(k, h, h), ORIGIN, ORIGIN))
    else if i == 4 then Product(was, x, y, SquareJob(h, k, Move(a, 0, h), Move(b, h, 0)))
    else if i == 5 then Product(was, s.s4, y, SquareJob(h, Move(k, 0, h), ORIGIN, Move(b, h, h)))
    else Product(was, x, s.s8, SquareJob(h, Move(k, h, 0), Move(a, h, h), ORIGIN))
  }

  /** The i-th product is there, unless it is still to do. */
  ghost function Step(i: nat, todo: set<nat>, was: Matrix,
                      x: Matrix, a: Corner, y: Matrix, b: Corner, h: nat, s: Sums, k: Corner): (p: Matrix)
    ensures |p| == |was| && forall r :: 0 <= r < |was| ==> |p[r]| == |was[r]|
  {
    if i in todo then was else Fill(i, was, x, a, y, b, h, s, k)
  }

  /** The result matrix after those of the four products that are not to do any more. */
  ghost function Partly(todo: set<nat>, was: Matrix,
                        x: Matrix, a: Corner, y: Matrix, b: Corner, h: nat, s: Sums, k: Corner): (p: Matrix)
    ensures |p| == |was| && forall r :: 0 <= r < |was| ==> |p[r]| == |was[r]|
  {
    var p22 := Step(3, todo, was, x, a, y, b, h, s, k);
    var p11 := Step(4, todo, p22, x, a, y, b, h, s, k);
    var p12 := Step(5, todo, p11, x, a, y, b, h, s, k);
    Step(6, todo, p12, x, a, y, b, h, s, k)
  }

  /** The result matrix after all four. */
  ghost function Quadrants(was: Matrix,
                           x: Matrix, a: Corner, y: Matrix, b: Corner, h: nat, s: Sums, k: Corner): (p: Matrix)
    ensures |p| == |was| && forall r :: 0 <= r < |was| ==> |p[r]| == |was[r]|
  {
    Partly({}, was, x, a, y, b, h, s, k)
  }

  lemma FillCommute(i: nat, j: nat, was: Matrix, x: Matrix, a: Corner, y: Matrix, b: Corner, h: nat, s: Sums, k: Corner)
    requires 3 <= i < j <= 6
    ensures Fill(j, Fill(i, was, x, a, y, b, h, s, k), x, a, y, b, h, s, k)
         == Fill(i, Fill(j, was, x, a, y, b, h, s, k), x, a, y, b, h, s, k)
  {
    hide Product;
    var q22, q11 := SquareJob(h, Move(k, h, h), ORIGIN, ORIGIN), SquareJob(h, k, Move(a, 0, h), Move(b, h, 0));
    var q12, q21 := SquareJob(h, Move(k, 0, h), ORIGIN, Move(b, h, h)), SquareJob(h, Move(k, h, 0), Move(a, h, h), ORIGIN);
    if i == 3 && j == 4 {
      DisjointCommute(was, s.s3, s.s7, q22, x, y, q11);
    } else if i == 3 && j == 5 {
      DisjointCommute(was, s.s3, s.s7, q22, s.s4, y, q12);
    } else if i == 3 {
      DisjointCommute(was, s.s3, s.s7, q22, x, s.s8, q21);
    } else if i == 4 && j == 5 {
      DisjointCommute(was, x, y, q11, s.s4, y, q12);
    } else if i == 4 {
      DisjointCommute(was, x, y, q11, x, s.s8, q21);
    } else {
      DisjointCommute(was, s.s4, y, q12, x, s.s8, q21);
    }
  }

  /** A product that is done later might as well be done before product j. */
  lemma StepCommute(i: nat, j: nat, todo: set<nat>, was: Matrix,
                    x: Matrix, a: Corner, y: Matrix, b: Corner, h: nat, s: Sums, k: Corner)
    requires 3 <= i < j <= 6
    ensures Fill(i, Step(j, todo, was, x, a, y, b, h, s, k), x, a, y, b, h, s, k)
         == Step(j, todo, Fill(i, was, x, a, y, b, h, s, k), x, a, y, b, h, s, k)
  {
    hide Fill;
    FillCommute(i, j, was, x, a, y, b, h, s, k);
  }

  /** Whichever product comes next, it adds itself to those that are there. */
  lemma PartlyNext(i: nat, todo: set<nat>, was: Matrix,
                   x: Matrix, a: Corner, y: Matrix, b: Corner, h: nat, s: Sums, k: Corner)
    requires 3 <= i <= 6 && i in todo
    ensures Fill(i, Partly(todo, was, x, a, y, b, h, s, k), x, a, y, b, h, s, k)
         == Partly(todo - {i}, was, x, a, y, b, h, s, k)
  {
    hide Fill;
    var p22 := Step(3, todo, was, x, a, y, b, h, s, k);
    var p11 := Step(4, todo, p22, x, a, y, b, h, s, k);
    var p12 := Step(5, todo, p11, x, a, y, b, h, s, k);
    if i == 3 {
      StepCommute(3, 6, todo, p12, x, a, y, b, h, s, k);
      StepCommute(3, 5, todo, p11, x, a, y, b, h, s, k);
      StepCommute(3, 4, todo, p22, x, a, y, b, h, s, k);
    } else if i == 4 {
      StepCommute(4, 6, todo, p12, x, a, y, b, h, s, k);
      StepCommute(4, 5, todo, p11, x, a, y, b, h, s, k);
    } else if i == 5 {
      StepCommute(5, 6, todo, p12, x, a, y, b, h, s, k);
    }
  }

  /** Each quadrant holds its product; the others do not disturb it. */
  lemma QuadrantCells(was: Matrix, x: Matrix, a: Corner, y: Matrix, b: Corner, h: nat, s: Sums, k: Corner, i: nat, j: nat)
    requires i < h && j < h && Has(was, k.r + i, k.c + j) && Has(was, k.r + i, k.c + h + j)
    requires Has(was, k.r + h + i, k.c + j) && Has(was, k.r + h + i, k.c + h + j)
    ensures var p := Quadrants(was, x, a, y, b, h, s, k);
            && At(p, k.r + i, k.c + j) == Dot(x, Move(a, 0, h), y, Move(b, h, 0), i, j, h)
            && At(p, k.r + i, k.c + h + j) == Dot(s.s4, ORIGIN, y, Move(b, h, h), i, j, h)
            && At(p, k.r + h + i, k.c + j) == Dot(x, Move(a, h, h), s.s8, ORIGIN, i, j, h)
            && At(p, k.r + h + i, k.c + h + j) == Dot(s.s3, ORIGIN, s.s7, ORIGIN, i, j, h)
  {
    hide Dot, Product, At, Has;
    var q22, q11 := SquareJob(h, Move(k, h, h), ORIGIN, ORIGIN), SquareJob(h, k, Move(a, 0, h), Move(b, h, 0));
    var q12, q21 := SquareJob(h, Move(k, 0, h), ORIGIN, Move(b, h, h)), SquareJob(h, Move(k, h, 0), Move(a, h, h), ORIGIN);
    var p22 := Product(was, s.s3, s.s7, q22);
    var p11 := Product(p22, x, y, q11);
    var p12 := Product(p11, s.s4, y, q12);
    ProductHas(was, s.s3, s.s7, q22, k.r + i, k.c + j);
    ProductCell(p22, x, y, h, k, Move(a, 0, h), Move(b, h, 0), i, j);
    ProductHas(p22, x, y, q11, k.r + i, k.c + j);
    ProductSkips(p11, s.s4, y, q12, k.r + i, k.c + j);
    ProductSkips(p12, x, s.s8, q21, k.r + i, k.c + j);

    ProductHas(was, s.s3, s.s7, q22, k.r + i, k.c + h + j);
    ProductHas(p22, x, y, q11, k.r + i, k.c + h + j);
    ProductCell(p11, s.s4, y, h, Move(k, 0, h), ORIGIN, Move(b, h, h), i, j);
    ProductHas(p11, s.s4, y, q12, k.r + i, k.c + h + j);
    ProductSkips(p12, x, s.s8, q21, k.r + i, k.c + h + j);

    ProductHas(was, s.s3, s.s7, q22, k.r + h + i, k.c + j);
    ProductHas(p22, x, y, q11, k.r + h + i, k.c + j);
    ProductHas(p11, s.s4, y, q12, k.r + h + i, k.c + j);
    ProductCell(p12, x, s.s8, h, Move(k, h, 0), Move(a, h, h), ORIGIN, i, j);

    ProductCell(was, s.s3, s.s7, h, Move(k, h, h), ORIGIN, ORIGIN, i, j);
    ProductHas(was, s.s3, s.s7, q22, k.r + h + i, k.c + h + j);
    ProductSkips(p22, x, y, q11, k.r + h + i, k.c + h + j);
    ProductSkips(p11, s.s4, y, q12, k.r + h + i, k.c + h + j);
    ProductSkips(p12, x, s.s8, q21, k.r + h + i, k.c + h + j);
  }

  lemma QuadrantsSkip(was: Matrix, x: Matrix, a: Corner, y: Matrix, b: Corner, h: nat, s: Sums, k: Corner, r: nat, c: nat)
    requires Has(was, r, c) && !Within(k, 2 * h, 2 * h, r, c)
    ensures At(Quadrants(was, x, a, y, b, h, s, k), r, c) == At(was, r, c)
  {
    hide Dot, Product, At, Has;
    var q22, q11 := SquareJob(h, Move(k, h, h), ORIGIN, ORIGIN), SquareJob(h, k, Move(a, 0, h), Move(b, h, 0));
    var q12, q21 := SquareJob(h, Move(k, 0, h), ORIGIN, Move(b, h, h)), SquareJob(h, Move(k, h, 0), Move(a, h, h), ORIGIN);
    var p22 := Product(was, s.s3, s.s7, q22);
    var p11 := Product(p22, x, y, q11);
    var p12 := Product(p11, s.s4, y, q12);
    ProductSkips(was, s.s3, s.s7, q22, r, c);
    ProductSkips(p22, x, y, q11, r, c);
    ProductSkips(p11, s.s4, y, q12, r, c);
    ProductSkips(p12, x, s.s8, q21, r, c);
  }

  // ---------------------------------------------------------------- the last loop

  /** Place (r, c) inside a quadrant, from the place inside the block. */
  function Fold(n: nat, h: nat): nat {
    if n < h then n else n - h
  }

  /** From `p` to `f`: the places before row r and column c of every quadrant are done. */
  ghost function Blend(p: Matrix, f: Matrix, k: Corner, h: nat, r: nat, c: nat): (m: Matrix)
    ensures |m| == |p| && forall i :: 0 <= i < |p| ==> |m[i]| == |p[i]|
  {
    seq(|p|, i requires 0 <= i < |p| => seq(|p[i]|, j requires 0 <= j < |p[i]| => BlendCell(p, f, k, h, r, c, i, j)))
  }

  ghost function BlendCell(p: Matrix, f: Matrix, k: Corner, h: nat, r: nat, c: nat, i: nat, j: nat): real {
    if Within(k, 2 * h, 2 * h, i, j) && Before(Fold(i - k.r, h), Fold(j - k.c, h), r, c) then At(f, i, j) else At(p, i, j)
  }

  predicate Before(i: nat, j: nat, r: nat, c: nat) {
    i < r || (i == r && j < c)
  }

  lemma BlendAt(p: Matrix, f: Matrix, k: Corner, h: nat, r: nat, c: nat, i: nat, j: nat)
    requires Has(p, i, j)
    ensures Has(Blend(p, f, k, h, r, c), i, j) && At(Blend(p, f, k, h, r, c), i, j) == BlendCell(p, f, k, h, r, c, i, j)
  {
    hide BlendCell;
  }

  predicate HasFour(m: Matrix, k: Corner, h: nat, r: nat, c: nat) {
    && Has(m, k.r + r, k.c + c) && Has(m, k.r + r, k.c + h + c)
    && Has(m, k.r + h + r, k.c + c) && Has(m, k.r + h + r, k.c + h + c)
  }

  /** The values v at place (r, c) of the four quadrants. */
  datatype Four = Four(v11: real, v12: real, v21: real, v22: real)

  function SetFour(m: Matrix, k: Corner, h: nat, r: nat, c: nat, v: Four): Matrix
    requires HasFour(m, k, h, r, c)
  {
    var m11 := SetCell(m, k.r + r, k.c + c, v.v11);
    var m12 := SetCell(m11, k.r + r, k.c + h + c, v.v12);
    var m22 := SetCell(m12, k.r + h + r, k.c + h + c, v.v22);
    SetCell(m22, k.r + h + r, k.c + c, v.v21)
  }

  lemma SetFourAt(m: Matrix, k: Corner, h: nat, r: nat, c: nat, v: Four, i: nat, j: nat)
    requires HasFour(m, k, h, r, c) && h > 0
    ensures Has(SetFour(m, k, h, r, c, v), i, j) <==> Has(m, i, j)
    ensures At(SetFour(m, k, h, r, c, v), i, j)
         == if i == k.r + r && j == k.c + c then v.v11
            else if i == k.r + r && j == k.c + h + c then v.v12
            else if i == k.r + h + r && j == k.c + h + c then v.v22
            else if i == k.r + h + r && j == k.c + c then v.v21
            else At(m, i, j)
  {
    hide At, Has;
    var m11 := SetCell(m, k.r + r, k.c + c, v.v11);
    SetAt(m, k.r + r, k.c + c, v.v11, i, j);
    SetAt(m, k.r + r, k.c + c, v.v11, k.r + r, k.c + h + c);
    SetAt(m, k.r + r, k.c + c, v.v11, k.r + h + r, k.c + h + c);
    SetAt(m, k.r + r, k.c + c, v.v11, k.r + h + r, k.c + c);
    var m12 := SetCell(m11, k.r + r, k.c + h + c, v.v12);
    SetAt(m11, k.r + r, k.c + h + c, v.v12, i, j);
    SetAt(m11, k.r + r, k.c + h + c, v.v12, k.r + h + r, k.c + h + c);
    SetAt(m11, k.r + r, k.c + h + c, v.v12, k.r + h + r, k.c + c);
    var m22 := SetCell(m12, k.r + h + r, k.c + h + c, v.v22);
    SetAt(m12, k.r + h + r, k.c + h + c, v.v22, i, j);
    SetAt(m12, k.r + h + r, k.c + h + c, v.v22, k.r + h + r, k.c + c);
    SetAt(m22, k.r + h + r, k.c + c, v.v21, i, j);
  }

  ghost function FourOf(f: Matrix, k: Corner, h: nat, r: nat, c: nat): Four {
    Four(At(f, k.r + r, k.c + c), At(f, k.r + r, k.c + h + c), At(f, k.r + h + r, k.c + c), At(f, k.r + h + r, k.c + h + c))
  }

  lemma SetFourSize(m: Matrix, k: Corner, h: nat, r: nat, c: nat, v: Four)
    requires HasFour(m, k, h, r, c)
    ensures |SetFour(m, k, h, r, c, v)| == |m|
    ensures forall i :: 0 <= i < |m| ==> |SetFour(m, k, h, r, c, v)[i]| == |m[i]|
  {
  }

  lemma BlendNext(p: Matrix, f: Matrix, k: Corner, h: nat, r: nat, c: nat)
    requires HasFour(p, k, h, r, c) && r < h && c < h
    ensures HasFour(Blend(p, f, k, h, r, c), k, h, r, c)
    ensures FourOf(Blend(p, f, k, h, r, c), k, h, r, c) == FourOf(p, k, h, r, c)
    ensures SetFour(Blend(p, f, k, h, r, c), k, h, r, c, FourOf(f, k, h, r, c)) == Blend(p, f, k, h, r, c + 1)
  {
    hide At, Has, Blend, SetFour;
    var m, v := Blend(p, f, k, h, r, c), FourOf(f, k, h, r, c);
    BlendAt(p, f, k, h, r, c, k.r + r, k.c + c);
    BlendAt(p, f, k, h, r, c, k.r + r, k.c + h + c);
    BlendAt(p, f, k, h, r, c, k.r + h + r, k.c + c);
    BlendAt(p, f, k, h, r, c, k.r + h + r, k.c + h + c);
    var x, y := SetFour(m, k, h, r, c, v), Blend(p, f, k, h, r, c + 1);
    forall i: nat, j: nat | Has(x, i, j) ensures At(x, i, j) == At(y, i, j) {
      SetFourAt(m, k, h, r, c, v, i, j);
      BlendHas(p, f, k, h, r, c, i, j);
      BlendAt(p, f, k, h, r, c, i, j);
      BlendAt(p, f, k, h, r, c + 1, i, j);
    }
    SetFourSize(m, k, h, r, c, v);
    SameMatrix(x, y);
  }

  lemma BlendHas(p: Matrix, f: Matrix, k: Corner, h: nat, r: nat, c: nat, i: nat, j: nat)
    ensures Has(Blend(p, f, k, h, r, c), i, j) <==> Has(p, i, j)
  {
    hide Blend;
  }

  lemma BlendEnds(p: Matrix, f: Matrix, k: Corner, h: nat, r: nat)
    requires |p| == |f| && forall i :: 0 <= i < |p| ==> |p[i]| == |f[i]|
    requires forall i: nat, j: nat :: Has(p, i, j) && !Within(k, 2 * h, 2 * h, i, j) ==> At(p, i, j) == At(f, i, j)
    ensures Blend(p, f, k, h, r, h) == Blend(p, f, k, h, r + 1, 0)
    ensures Blend(p, f, k, h, 0, 0) == p && Blend(p, f, k, h, h, 0) == f
  {
    hide At, Has, Blend;
    forall i: nat, j: nat | Has(p, i, j)
      ensures At(Blend(p, f, k, h, r, h), i, j) == At(Blend(p, f, k, h, r + 1, 0), i, j)
      ensures At(p, i, j) == At(Blend(p, f, k, h, 0, 0), i, j) && At(Blend(p, f, k, h, h, 0), i, j) == At(f, i, j)
    {
      BlendAt(p, f, k, h, r, h, i, j);
      BlendAt(p, f, k, h, r + 1, 0, i, j);
      BlendAt(p, f, k, h, 0, 0, i, j);
      BlendAt(p, f, k, h, h, 0, i, j);
    }
    forall i: nat, j: nat ensures Has(Blend(p, f, k, h, r, h), i, j) <==> Has(p, i, j) {
      BlendHas(p, f, k, h, r, h, i, j);
    }
    forall i: nat, j: nat ensures Has(Blend(p, f, k, h, h, 0), i, j) <==> Has(p, i, j) {
      BlendHas(p, f, k, h, h, 0, i, j);
    }
    SameMatrix(Blend(p, f, k, h, r, h), Blend(p, f, k, h, r + 1, 0));
    SameMatrix(p, Blend(p, f, k, h, 0, 0));
    SameMatrix(Blend(p, f, k, h, h, 0), f);
  }

  /** What the last loop makes of the four values at one place. */
  function Added(v: Four, m2: real, m5: real, t1: real): Four {
    var t := t1 + m2;
    var t2 := v.v22 + t;
    Four(v.v11 + m2, v.v12 + (m5 + t), -v.v21 + t2, m5 + t2)
  }

  /** One column of the last loop, which the source unrolls four times, through its pointers. */
  method CombineCell(C: Plane, k: Corner, h: nat, M2: Plane, M5: Plane, T1: Plane,
                     ghost r: nat, ghost c: nat, at: Quads, t: nat)
    requires C.cells != M2.cells && C.cells != M5.cells && C.cells != T1.cells && Fits(C, k, 2 * h, 2 * h)
    requires Square(M2, h) && Square(M5, h) && Square(T1, h) && r < h && c < h
    requires at == Place(C, k, h, r, c) && t == r * h + c
    modifies C.cells
    ensures HasFour(old(Grid(C)), k, h, r, c)
    ensures Grid(C) == SetFour(old(Grid(C)), k, h, r, c, Added(old(FourOf(Grid(C), k, h, r, c)),
                         At(Grid(M2), r, c), At(Grid(M5), r, c), At(Grid(T1), r, c)))
  {
    PlacePoints(C, k, h, r, c);
    TablePoints(M2, h, r, c, t);
    TablePoints(M5, h, r, c, t);
    TablePoints(T1, h, r, c, t);
    PlaceHas(C, k, h, r, c);
    hide Grid, Size, SetCell, At, Addr, Has;
    var m5, m2 := M5.cells[t], M2.cells[t];
    var t1 := T1.cells[t] + m2;
    var t2 := C.cells[at.p22] + t1;
    var c11, c12 := C.cells[at.p11] + m2, C.cells[at.p12] + (m5 + t1);
    var c22, c21 := m5 + t2, -C.cells[at.p21] + t2;
    Store(C, k.r + r, k.c + c, at.p11, c11);
    Store(C, k.r + r, k.c + h + c, at.p12, c12);
    Store(C, k.r + h + r, k.c + h + c, at.p22, c22);
    Store(C, k.r + h + r, k.c + c, at.p21, c21);
  }

  lemma TablePoints(s: Plane, h: nat, r: nat, c: nat, t: nat)
    requires Square(s, h) && r < h && c < h && t == r * h + c
    ensures t < s.cells.Length && s.cells[t] == At(Grid(s), r, c)
  {
    hide At, Grid;
    TableAddr(s, h, r, c);
    Points(s, r, c, t);
  }

  lemma PlaceHas(C: Plane, k: Corner, h: nat, r: nat, c: nat)
    requires Fits(C, k, 2 * h, 2 * h) && r < h && c < h
    ensures HasFour(Grid(C), k, h, r, c)
  {
    hide Grid;
  }

  /** The four values that the last loop writes are those of the product. */
  lemma FourTarget(was: Matrix, x: Matrix, a: Corner, y: Matrix, b: Corner, h: nat, s: Sums, k: Corner, mid: Mid,
                   r: nat, c: nat)
    requires SumsOf(x, a, y, b, h, s) && MidOf(x, a, y, b, h, s, k, mid) && r < h && c < h && HasFour(was, k, h, r, c)
    ensures FourOf(Product(was, x, y, SquareJob(2 * h, k, a, b)), k, h, r, c)
         == Added(FourOf(mid.p, k, h, r, c), At(mid.m2, r, c), At(mid.m5, r, c), At(mid.t1, r, c))
  {
    hide Dot, Product, At, Has, SumsOf, MidOf;
    Target(x, a, y, b, h, s, k, mid, r, c);
    ProductCell(was, x, y, 2 * h, k, a, b, r, c);
    ProductCell(was, x, y, 2 * h, k, a, b, r, h + c);
    ProductCell(was, x, y, 2 * h, k, a, b, h + r, c);
    ProductCell(was, x, y, 2 * h, k, a, b, h + r, h + c);
  }

  /** The block lies inside the matrix. */
  ghost predicate Roomy(m: Matrix, k: Corner, n: nat) {
    k.r + n <= |m| && forall i :: 0 <= i < |m| ==> k.c + n <= |m[i]|
  }

  lemma RoomyHasFour(m: Matrix, k: Corner, h: nat, r: nat, c: nat)
    requires Roomy(m, k, 2 * h) && r < h && c < h
    ensures HasFour(m, k, h, r, c)
  {
  }

  /** The seven products are there, and the sums of quadrants are what they were made from. */
  ghost predicate Ready(was: Matrix, x: Matrix, a: Corner, y: Matrix, b: Corner, h: nat, s: Sums, k: Corner, mid: Mid) {
    && Roomy(was, k, 2 * h) && SumsOf(x, a, y, b, h, s)
    && MidOf(x, a, y, b, h, s, k, mid) && mid.p == Quadrants(was, x, a, y, b, h, s, k)
  }

  /** What the last loop writes at one place of each quadrant takes it one place further. */
  lemma CombineStep(was: Matrix, x: Matrix, a: Corner, y: Matrix, b: Corner, h: nat, s: Sums, k: Corner, mid: Mid,
                    r: nat, c: nat)
    requires Ready(was, x, a, y, b, h, s, k, mid) && r < h && c < h
    ensures var f := Product(was, x, y, SquareJob(2 * h, k, a, b));
            var m := Blend(mid.p, f, k, h, r, c);
            && HasFour(m, k, h, r, c)
            && SetFour(m, k, h, r, c, Added(FourOf(m, k, h, r, c), At(mid.m2, r, c), At(mid.m5, r, c), At(mid.t1, r, c)))
            == Blend(mid.p, f, k, h, r, c + 1)
  {
    hide Quadrants, Product, SumsOf, MidOf, Blend, SetFour, FourOf, Added, At, Roomy;
    RoomyHasFour(was, k, h, r, c);
    QuadrantsHasFour(was, x, a, y, b, h, s, k, r, c);
    FourTarget(was, x, a, y, b, h, s, k, mid, r, c);
    BlendNext(mid.p, Product(was, x, y, SquareJob(2 * h, k, a, b)), k, h, r, c);
  }

  /** One row of the last loop nest; the pointers move along. */
  method CombineRow(C: Plane, k: Corner, h: nat, M2: Plane, M5: Plane, T1: Plane,
                    ghost r: nat, start: Quads, first: nat, ghost was: Matrix, ghost x: Matrix, ghost a: Corner,
                    ghost y: Matrix, ghost b: Corner, ghost s: Sums, ghost mid: Mid)
    returns (at: Quads, t: nat)
    requires C.cells != M2.cells && C.cells != M5.cells && C.cells != T1.cells && Fits(C, k, 2 * h, 2 * h)
    requires Square(M2, h) && Square(M5, h) && Square(T1, h) && h % 4 == 0 && r < h
    requires Ready(was, x, a, y, b, h, s, k, mid) && mid.m2 == Grid(M2) && mid.m5 == Grid(M5) && mid.t1 == Grid(T1)
    requires start == Place(C, k, h, r, 0) && first == r * h
    requires Grid(C) == Blend(mid.p, Product(was, x, y, SquareJob(2 * h, k, a, b)), k, h, r, 0)
    modifies C.cells
    ensures at == Place(C, k, h, r, h) && t == first + h
    ensures Grid(C) == Blend(mid.p, Product(was, x, y, SquareJob(2 * h, k, a, b)), k, h, r, h)
  {
    hide Grid, Size, Product, Ready, Blend, SetFour, FourOf, Added, At, Place, HasFour;
    ghost var f := Product(was, x, y, SquareJob(2 * h, k, a, b));
    at, t := start, first;
    var c := 0;
    while c < h
      invariant c <= h && c % 4 == 0 && at == Place(C, k, h, r, c) && t == first + c
      invariant Grid(C) == Blend(mid.p, f, k, h, r, c)
    {
      for u := 0 to 4
        invariant Grid(C) == Blend(mid.p, f, k, h, r, c + u)
      {
        CombineStep(was, x, a, y, b, h, s, k, mid, r, c + u);
        PlaceNext(C, k, h, r, c, u);
        CombineCell(C, k, h, M2, M5, T1, r, c + u, Shift(at, u), t + u);
      }
      PlaceNext(C, k, h, r, c, 4);
      at := Shift(at, 4);
      t := t + 4;
      c := c + 4;
    }
  }

  /** The last loop nest: it turns the seven products into the product. */
  method Combine(C: Plane, k: Corner, h: nat, M2: Plane, M5: Plane, T1: Plane,
                 ghost was: Matrix, ghost x: Matrix, ghost a: Corner, ghost y: Matrix, ghost b: Corner, ghost s: Sums)
    requires C.cells != M2.cells && C.cells != M5.cells && C.cells != T1.cells && Fits(C, k, 2 * h, 2 * h)
    requires Square(M2, h) && Square(M5, h) && Square(T1, h) && h % 4 == 0
    requires Ready(was, x, a, y, b, h, s, k, Now(C, M2, M5, T1))
    modifies C.cells
    ensures Grid(C) == Product(was, x, y, SquareJob(2 * h, k, a, b))
  {
    ghost var mid, f := Now(C, M2, M5, T1), Product(was, x, y, SquareJob(2 * h, k, a, b));
    Enclosed(was, x, a, y, b, h, s, k);
    hide Grid, Size, Product, Quadrants, Blend, At, Place, SumsOf, MidOf, Roomy;
    BlendEnds(mid.p, f, k, h, 0);
    var at, t := Starts(C, k, h), 0;
    PlaceStarts(C, k, h);
    for r := 0 to h
      invariant at == Place(C, k, h, r, 0) && t == r * h
      invariant Grid(C) == Blend(mid.p, f, k, h, r, 0)
    {
      at, t := CombineRow(C, k, h, M2, M5, T1, r, at, t, was, x, a, y, b, s, mid);
      PlaceRow(C, k, h, r);
      at := Shift(at, C.width - h);
      BlendEnds(mid.p, f, k, h, r);
    }
  }

  lemma QuadrantsHasFour(was: Matrix, x: Matrix, a: Corner, y: Matrix, b: Corner, h: nat, s: Sums, k: Corner, r: nat, c: nat)
    requires HasFour(was, k, h, r, c)
    ensures HasFour(Quadrants(was, x, a, y, b, h, s, k), k, h, r, c)
  {
    hide Quadrants;
  }

  /** Outside the block the four products and the product agree. */
  lemma Enclosed(was: Matrix, x: Matrix, a: Corner, y: Matrix, b: Corner, h: nat, s: Sums, k: Corner)
    ensures var p, f := Quadrants(was, x, a, y, b, h, s, k), Product(was, x, y, SquareJob(2 * h, k, a, b));
            && |p| == |f| && (forall i :: 0 <= i < |p| ==> |p[i]| == |f[i]|)
            && forall i: nat, j: nat :: Has(p, i, j) && !Within(k, 2 * h, 2 * h, i, j) ==> At(p, i, j) == At(f, i, j)
  {
    hide Quadrants, Product;
    var p, f := Quadrants(was, x, a, y, b, h, s, k), Product(was, x, y, SquareJob(2 * h, k, a, b));
    forall i: nat, j: nat | Has(p, i, j) && !Within(k, 2 * h, 2 * h, i, j) ensures At(p, i, j) == At(f, i, j) {
      QuadrantsSkip(was, x, a, y, b, h, s, k, i, j);
      ProductSkips(was, x, y, SquareJob(2 * h, k, a, b), i, j);
    }
  }

  /** The products in tables of their own, by their places among the seven. */
  ghost function TableOf(i: nat, was: Matrix, x: Matrix, a: Corner, y: Matrix, b: Corner, h: nat, s: Sums): Matrix {
    if i == 0 then Product(was, x, y, SquareJob(h, ORIGIN, a, b))
    else if i == 1 then Product(was, s.s1, s.s5, SquareJob(h, ORIGIN, ORIGIN, ORIGIN))
    else Product(was, s.s2, s.s6, SquareJob(h, ORIGIN, ORIGIN, ORIGIN))
  }

  /** The result and the three tables after product i. */
  ghost function After(i: nat, m: Mid, x: Matrix, a: Corner, y: Matrix, b: Corner, h: nat, s: Sums, k: Corner): Mid {
    if i == 0 then m.(m2 := TableOf(0, m.m2, x, a, y, b, h, s))
    else if i == 1 then m.(m5 := TableOf(1, m.m5, x, a, y, b, h, s))
    else if i == 2 then m.(t1 := TableOf(2, m.t1, x, a, y, b, h, s))
    else m.(p := Fill(i, m.p, x, a, y, b, h, s, k))
  }

  /** The result and the three tables after the products that are not to do any more. */
  ghost function Progress(todo: set<nat>, was: Mid,
                          x: Matrix, a: Corner, y: Matrix, b: Corner, h: nat, s: Sums, k: Corner): Mid {
    Mid(Partly(todo, was.p, x, a, y, b, h, s, k),
        if 0 in todo then was.m2 else TableOf(0, was.m2, x, a, y, b, h, s),
        if 1 in todo then was.m5 else TableOf(1, was.m5, x, a, y, b, h, s),
        if 2 in todo then was.t1 else TableOf(2, was.t1, x, a, y, b, h, s))
  }

  lemma NothingYet(was: Mid, x: Matrix, a: Corner, y: Matrix, b: Corner, h: nat, s: Sums, k: Corner)
    ensures Progress({0, 1, 2, 3, 4, 5, 6}, was, x, a, y, b, h, s, k) == was
  {
    hide Fill, TableOf;
  }

  lemma ProgressNext(i: nat, todo: set<nat>, was: Mid,
                     x: Matrix, a: Corner, y: Matrix, b: Corner, h: nat, s: Sums, k: Corner)
    requires i in todo && i <= 6
    ensures After(i, Progress(todo, was, x, a, y, b, h, s, k), x, a, y, b, h, s, k)
         == Progress(todo - {i}, was, x, a, y, b, h, s, k)
  {
    hide Fill, TableOf;
    if i >= 3 {
      PartlyNext(i, todo, was.p, x, a, y, b, h, s, k);
    }
  }

  /** With all seven products done, in whatever order, the last loop can begin. */
  lemma MidHolds(was: Mid, x: Matrix, a: Corner, y: Matrix, b: Corner, h: nat, s: Sums, k: Corner)
    requires Roomy(was.p, k, 2 * h) && Roomy(was.m2, ORIGIN, h) && Roomy(was.m5, ORIGIN, h) && Roomy(was.t1, ORIGIN, h)
    requires SumsOf(x, a, y, b, h, s)
    ensures Ready(was.p, x, a, y, b, h, s, k, Progress({}, was, x, a, y, b, h, s, k))
  {
    hide Dot, Product, Quadrants, At, SumsOf;
    var mid := Progress({}, was, x, a, y, b, h, s, k);
    assert mid.p == Quadrants(was.p, x, a, y, b, h, s, k) by {
      AllDone(was, x, a, y, b, h, s, k);
    }
    forall i: nat, j: nat | i < h && j < h ensures MidAt(x, a, y, b, h, s, k, mid, i, j) {
      RoomyHasFour(was.p, k, h, i, j);
      QuadrantCells(was.p, x, a, y, b, h, s, k, i, j);
      ProductCell(was.m2, x, y, h, ORIGIN, a, b, i, j);
      ProductCell(was.m5, s.s1, s.s5, h, ORIGIN, ORIGIN, ORIGIN, i, j);
      ProductCell(was.t1, s.s2, s.s6, h, ORIGIN, ORIGIN, ORIGIN, i, j);
    }
  }

  lemma AllDone(was: Mid, x: Matrix, a: Corner, y: Matrix, b: Corner, h: nat, s: Sums, k: Corner)
    ensures Progress({}, was, x, a, y, b, h, s, k).p == Quadrants(was.p, x, a, y, b, h, s, k)
  {
    hide Partly, TableOf;
  }

  /** The operands, the result and the temporaries do not share memory, but for the operands. */
  ghost predicate Disjoint(A: Plane, B: Plane, C: Plane, S: Tables, M2: Plane, M5: Plane, T1: Plane) {
    && {C.cells, M2.cells, M5.cells, T1.cells} !! Cells(S) + {A.cells, B.cells}
    && C.cells != M2.cells && C.cells != M5.cells && C.cells != T1.cells
    && M2.cells != M5.cells && M2.cells != T1.cells && M5.cells != T1.cells
  }

  lemma GridRoomy(m: Plane, k: Corner, n: nat)
    requires Fits(m, k, n, n)
    ensures Roomy(Grid(m), k, n)
  {
  }

  /** A product that gets a table of its own: 0 to 2 for M2, M5 and T1. */
  method TableProduct(i: nat, A: Plane, B: Plane, a: Corner, b: Corner, h: nat, S: Tables, M: Plane)
    requires Fits(A, a, h, h) && Fits(B, b, h, h) && Squares(S, h) && PowerOfTwo(h) && Square(M, h)
    requires M.cells != A.cells && M.cells != B.cells && M.cells !in Cells(S)
    modifies M.cells
    ensures Grid(M) == TableOf(i, old(Grid(M)), Grid(A), a, Grid(B), b, h, Contents(S, h))
    decreases h, 3
  {
    hide Grid, Size, Product, PowerOfTwo;
    if i == 0 {
      StrassenMultiply(A, B, M, SquareJob(h, ORIGIN, a, b));
    } else if i == 1 {
      StrassenMultiply(S.s1, S.s5, M, SquareJob(h, ORIGIN, ORIGIN, ORIGIN));
    } else {
      StrassenMultiply(S.s2, S.s6, M, SquareJob(h, ORIGIN, ORIGIN, ORIGIN));
    }
  }

  /** A product that goes straight into a quadrant of C. */
  method QuadrantProduct(i: nat, A: Plane, B: Plane, C: Plane, k: Corner, a: Corner, b: Corner, h: nat, S: Tables)
    requires FitAll(A, B, C, SquareJob(2 * h, k, a, b)) && Squares(S, h) && C.cells !in Cells(S) && PowerOfTwo(h)
    modifies C.cells
    ensures Grid(C) == Fill(i, old(Grid(C)), Grid(A), a, Grid(B), b, h, Contents(S, h), k)
    decreases h, 3
  {
    hide Grid, Size, Product, PowerOfTwo;
    if i == 3 {
      StrassenMultiply(S.s3, S.s7, C, SquareJob(h, Move(k, h, h), ORIGIN, ORIGIN));
    } else if i == 4 {
      StrassenMultiply(A, B, C, SquareJob(h, k, Move(a, 0, h), Move(b, h, 0)));
    } else if i == 5 {
      StrassenMultiply(S.s4, B, C, SquareJob(h, Move(k, 0, h), ORIGIN, Move(b, h, h)));
    } else {
      StrassenMultiply(A, S.s8, C, SquareJob(h, Move(k, h, 0), Move(a, h, h), ORIGIN));
    }
  }

  /** Whichever product comes next. */
  method OneProduct(i: nat, A: Plane, B: Plane, C: Plane, k: Corner, a: Corner, b: Corner, h: nat, S: Tables,
                    M2: Plane, M5: Plane, T1: Plane)
    requires Disjoint(A, B, C, S, M2, M5, T1)
    requires FitAll(A, B, C, SquareJob(2 * h, k, a, b)) && Squares(S, h) && PowerOfTwo(h)
    requires Square(M2, h) && Square(M5, h) && Square(T1, h)
    modifies C.cells, M2.cells, M5.cells, T1.cells
    ensures Now(C, M2, M5, T1) == After(i, old(Now(C, M2, M5, T1)), Grid(A), a, Grid(B), b, h, Contents(S, h), k)
    decreases h, 4
  {
    hide Grid, Size, Fill, TableOf, Contents, PowerOfTwo;
    if i == 0 {
      TableProduct(0, A, B, a, b, h, S, M2);
    } else if i == 1 {
      TableProduct(1, A, B, a, b, h, S, M5);
    } else if i == 2 {
      TableProduct(2, A, B, a, b, h, S, T1);
    } else {
      QuadrantProduct(i, A, B, C, k, a, b, h, S);
    }
  }

  /** The seven spawned products, in any order. */
  method SevenProducts(A: Plane, B: Plane, C: Plane, k: Corner, a: Corner, b: Corner, h: nat, S: Tables,
                       M2: Plane, M5: Plane, T1: Plane)
    requires Disjoint(A, B, C, S, M2, M5, T1)
    requires FitAll(A, B, C, SquareJob(2 * h, k, a, b)) && Squares(S, h) && PowerOfTwo(h)
    requires Square(M2, h) && Square(M5, h) && Square(T1, h)
    modifies C.cells, M2.cells, M5.cells, T1.cells
    ensures Now(C, M2, M5, T1) == Progress({}, old(Now(C, M2, M5, T1)), Grid(A), a, Grid(B), b, h, Contents(S, h), k)
    decreases h, 5
  {
    ghost var was, x, y, s := Now(C, M2, M5, T1), Grid(A), Grid(B), Contents(S, h);
    NothingYet(was, x, a, y, b, h, s, k);
    var todo: set<nat> := {0, 1, 2, 3, 4, 5, 6};
    hide *;
    while todo != {}
      invariant todo <= {0, 1, 2, 3, 4, 5, 6}
      invariant Now(C, M2, M5, T1) == Progress(todo, was, x, a, y, b, h, s, k)
    {
      var i :| i in todo;
      ProgressNext(i, todo, was, x, a, y, b, h, s, k);
      OneProduct(i, A, B, C, k, a, b, h, S, M2, M5, T1);
      todo := todo - {i};
    }
  }

  /** OptimizedStrassenMultiply: the block of C becomes the product, and nothing else of C
      changes, although the quadrants of C serve as temporaries on the way. */
  method StrassenMultiply(A: Plane, B: Plane, C: Plane, q: Job)
    requires FitAll(A, B, C, q) && q.m == q.n == q.p && PowerOfTwo(q.n) && !q.add
    modifies C.cells
    ensures Grid(C) == Product(old(Grid(C)), Grid(A), Grid(B), q)
    decreases q.n, 2
  {
    if q.n <= CONQUER_SIZE {
      DivideAndConquer(A, B, C, q);
    } else {
      SevenMultiplications(A, B, C, q);
    }
  }

  /** The recursive case of OptimizedStrassenMultiply. */
  method SevenMultiplications(A: Plane, B: Plane, C: Plane, q: Job)
    requires FitAll(A, B, C, q) && q.m == q.n == q.p > CONQUER_SIZE && PowerOfTwo(q.n) && !q.add
    modifies C.cells
    ensures Grid(C) == Product(old(Grid(C)), Grid(A), Grid(B), q)
    decreases q.n, 1
  {
    hide Grid, Size, Product, SumsOf, Ready, Roomy, Contents, Progress, PowerOfTwo;
    var h := q.n / 2;
    HalfPower(q.n);
    ghost var x, y := Grid(A), Grid(B);
    var S, M2, M5, T1 := Temporaries(h);
    FillTables(A, q.a, B, q.b, h, S);
    GridRoomy(C, q.k, 2 * h);
    GridRoomy(M2, ORIGIN, h);
    GridRoomy(M5, ORIGIN, h);
    GridRoomy(T1, ORIGIN, h);
    ghost var was, s := Now(C, M2, M5, T1), Contents(S, h);
    MidHolds(was, x, q.a, y, q.b, h, s, q.k);
    SevenProducts(A, B, C, q.k, q.a, q.b, h, S, M2, M5, T1);
    Combine(C, q.k, h, M2, M5, T1, was.p, x, q.a, y, q.b, s);
  }

  lemma HalfPower(n: nat)
    requires PowerOfTwo(n) && n > 16
    ensures PowerOfTwo(n / 2) && n == 2 * (n / 2) && n / 2 % 4 == 0
    decreases n
  {
    if n / 2 > 16 {
      HalfPower(n / 2);
    }
  }

  /** The eleven temporaries. */
  method Temporaries(h: nat) returns (S: Tables, M2: Plane, M5: Plane, T1: Plane)
    ensures Squares(S, h) && Square(M2, h) && Square(M5, h) && Square(T1, h)
    ensures Distinct(S) && {M2.cells, M5.cells, T1.cells} !! Cells(S)
    ensures M2.cells != M5.cells && M2.cells != T1.cells && M5.cells != T1.cells
    ensures fresh(Cells(S)) && fresh(M2.cells) && fresh(M5.cells) && fresh(T1.cells)
  {
    hide Size;
    var S1 := new Plane(h, h);
    var S2 := new Plane(h, h);
    var S3 := new Plane(h, h);
    var S4 := new Plane(h, h);
    var S5 := new Plane(h, h);
    var S6 := new Plane(h, h);
    var S7 := new Plane(h, h);
    var S8 := new Plane(h, h);
    M2 := new Plane(h, h);
    M5 := new Plane(h, h);
    T1 := new Plane(h, h);
    S := Tables(S1, S2, S3, S4, S5, S6, S7, S8);
  }
}
