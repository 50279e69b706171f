/**
 The base cases of the Strassen benchmark (benchmarks/strassen/strassen-lace.c): the kernels
 with eight running sums, which step through memory by pointers, and the divide and conquer
 above them. Numbers are exact.
 */
module StrassenKernels {
  import opened MatrixSpec
  import opened Planes
  import opened Matmul

  const NAIVE_SIZE: nat := 8

  /** The sizes the program accepts. */
  predicate PowerOfTwo(n: nat) {
    n == 16 || (n > 16 && n % 2 == 0 && PowerOfTwo(n / 2))
  }

  // ---------------------------------------------------------------- the unrolled kernels

  /** Eight neighbouring elements of a row. */
  method LoadEight(p: Plane, r: nat, c: nat, at: nat) returns (v: seq<real>)
    requires p.Valid() && r < p.rows && c + 8 <= p.width && at == Addr(p, r, c)
    ensures |v| == 8 && forall t :: 0 <= t < 8 ==> v[t] == At(Grid(p), r, c + t)
  {
    Points(p, r, c + 7, at + 7);
    v := p.cells[at..at + 8];
    forall t | 0 <= t < 8 ensures v[t] == At(Grid(p), r, c + t) {
      Points(p, r, c + t, at + t);
    }
  }

  /** One more product on each of the eight sums; a and b are the moving pointers. */
  method NextSums(A: Plane, B: Plane, q: Job, h: nat, n: nat, sums: seq<real>, a: nat, b: nat) returns (next: seq<real>)
    requires q.m == 1 && n < q.n && h + 8 <= q.p && Fits(A, q.a, 1, q.n) && Fits(B, q.b, q.n, q.p) && |sums| == 8
    requires a == Addr(A, q.a.r, q.a.c + n) && b == Addr(B, q.b.r + n, q.b.c + h)
    ensures |next| == 8
    ensures forall t :: 0 <= t < 8 ==>
              next[t] == sums[t] + At(Grid(A), q.a.r, q.a.c + n) * At(Grid(B), q.b.r + n, q.b.c + h + t)
  {
    hide Addr, Grid, At;
    Points(A, q.a.r, q.a.c + n, a);
    var v := A.cells[a];
    var row := LoadEight(B, q.b.r + n, q.b.c + h, b);
    next := seq(8, t requires 0 <= t < 8 => sums[t] + v * row[t]);
  }

  /** Eight running sums, started with their first products. */
  method EightSums(A: Plane, B: Plane, q: Job, h: nat, aRow: nat, bStart: nat)
    returns (sums: seq<real>, a: nat)
    requires q.m == 1 && q.n >= 1 && h + 8 <= q.p && Fits(A, q.a, 1, q.n) && Fits(B, q.b, q.n, q.p)
    requires aRow == Addr(A, q.a.r, q.a.c) && bStart == Addr(B, q.b.r, q.b.c)
    ensures |sums| == 8 && forall t :: 0 <= t < 8 ==> sums[t] == Dot(Grid(A), q.a, Grid(B), q.b, 0, h + t, q.n)
    ensures a == aRow + q.n
  {
    hide Grid, At;
    a := aRow;
    var b := bStart + h;
    Points(A, q.a.r, q.a.c, a);
    var first := A.cells[a];
    a := a + 1;
    var row := LoadEight(B, q.b.r, q.b.c + h, b);
    sums := seq(8, t requires 0 <= t < 8 => first * row[t]);
    FirstDots(Grid(A), q.a, Grid(B), q.b, h, sums);
    for n := 1 to q.n
      invariant a == Addr(A, q.a.r, q.a.c + n) && b == Addr(B, q.b.r + n - 1, q.b.c + h)
      invariant |sums| == 8 && forall t :: 0 <= t < 8 ==> sums[t] == Dot(Grid(A), q.a, Grid(B), q.b, 0, h + t, n)
    {
      NextRow(B, q.b.r + n - 1, q.b.c + h);
      b := b + B.width;
      sums := NextSums(A, B, q, h, n, sums, a, b);
      a := a + 1;
    }
  }

  lemma FirstDots(x: Matrix, a: Corner, y: Matrix, b: Corner, h: nat, sums: seq<real>)
    requires |sums| == 8 && forall t :: 0 <= t < 8 ==> sums[t] == At(x, a.r, a.c) * At(y, b.r, b.c + h + t)
    ensures forall t :: 0 <= t < 8 ==> sums[t] == Dot(x, a, y, b, 0, h + t, 1)
  {
    hide At;
    forall t | 0 <= t < 8 ensures sums[t] == Dot(x, a, y, b, 0, h + t, 1) {
      assert Dot(x, a, y, b, 0, h + t, 0) == 0.0;
    }
  }

  /** Eight running sums that start with the values in C. */
  method EightMore(A: Plane, B: Plane, C: Plane, q: Job, h: nat, aRow: nat, bStart: nat, c: nat)
    returns (sums: seq<real>, a: nat)
    requires q.m == 1 && h + 8 <= q.p && Fits(A, q.a, 1, q.n) && Fits(B, q.b, q.n, q.p) && Fits(C, q.k, 1, q.p)
    requires aRow == Addr(A, q.a.r, q.a.c) && bStart == Addr(B, q.b.r, q.b.c) && c == Addr(C, q.k.r, q.k.c + h)
    ensures |sums| == 8
    ensures forall t :: 0 <= t < 8 ==>
              sums[t] == At(Grid(C), q.k.r, q.k.c + h + t) + Dot(Grid(A), q.a, Grid(B), q.b, 0, h + t, q.n)
    ensures a == aRow + q.n
  {
    hide Grid, At;
    a := aRow;
    var b := bStart + h;
    sums := LoadEight(C, q.k.r, q.k.c + h, c);
    for n := 0 to q.n
      invariant a == Addr(A, q.a.r, q.a.c + n) && b == Addr(B, q.b.r + n, q.b.c + h)
      invariant |sums| == 8
      invariant forall t :: 0 <= t < 8 ==>
                  sums[t] == At(Grid(C), q.k.r, q.k.c + h + t) + Dot(Grid(A), q.a, Grid(B), q.b, 0, h + t, n)
    {
      sums := NextSums(A, B, q, h, n, sums, a, b);
      a := a + 1;
      NextRow(B, q.b.r + n, q.b.c + h);
      b := b + B.width;
    }
  }

  /** The eight stores of a kernel. */
  method StoreEight(A: Plane, B: Plane, C: Plane, q: Job, h: nat, sums: seq<real>, c: nat, ghost was: Matrix)
    requires FitAll(A, B, C, q) && q.m == 1 && h + 8 <= q.p && |sums| == 8 && c == Addr(C, q.k.r, q.k.c + h)
    requires |was| == C.rows && forall r :: 0 <= r < |was| ==> |was[r]| == C.width
    requires Grid(C) == Product(was, Grid(A), Grid(B), Left(q, h))
    requires forall t :: 0 <= t < 8 ==>
               sums[t] == (if q.add then At(was, q.k.r, q.k.c + h + t) else 0.0) + Dot(Grid(A), q.a, Grid(B), q.b, 0, h + t, q.n)
    modifies C.cells
    ensures Grid(C) == Product(was, Grid(A), Grid(B), Left(q, h + 8))
  {
    hide Product, Grid, Size, Dot;
    for t := 0 to 8
      invariant Grid(C) == Product(was, Grid(A), Grid(B), Left(q, h + t))
    {
      CellDone(was, Grid(A), Grid(B), q, h + t, sums[t]);
      Store(C, q.k.r, q.k.c + h + t, c + t, sums[t]);
    }
  }

  /** One row of a kernel. The pointer into A runs along its row and comes back, once for each
      eight columns; the pointer into C moves along the row. */
  method FastRow(A: Plane, B: Plane, C: Plane, q: Job, aRow: nat, bStart: nat, cStart: nat) returns (a: nat, c: nat)
    requires FitAll(A, B, C, q) && q.m == 1 && q.p % 8 == 0 && q.n >= 1
    requires aRow == Addr(A, q.a.r, q.a.c) && bStart == Addr(B, q.b.r, q.b.c) && cStart == Addr(C, q.k.r, q.k.c)
    modifies C.cells
    ensures Grid(C) == Product(old(Grid(C)), Grid(A), Grid(B), q) && a == aRow && c == cStart + q.p
  {
    hide Product, Grid, Size, Dot;
    ghost var was := Grid(C);
    NothingDone(was, Grid(A), Grid(B), Left(q, 0));
    var h := 0;
    a, c := aRow, cStart;
    while h < q.p
      invariant h <= q.p && h % 8 == 0 && a == aRow && c == cStart + h
      invariant Grid(C) == Product(was, Grid(A), Grid(B), Left(q, h))
    {
      var sums;
      if q.add {
        sums, a := EightMore(A, B, C, q, h, a, bStart, c);
        forall t | 0 <= t < 8
          ensures sums[t] == At(was, q.k.r, q.k.c + h + t) + Dot(Grid(A), q.a, Grid(B), q.b, 0, h + t, q.n)
        {
          NotYet(was, Grid(A), Grid(B), q, h, h + t);
        }
      } else {
        sums, a := EightSums(A, B, q, h, a, bStart);
      }
      a := a - q.n;
      StoreEight(A, B, C, q, h, sums, c, was);
      c := c + 8;
      h := h + 8;
    }
  }

  lemma NotYet(was: Matrix, x: Matrix, y: Matrix, q: Job, h: nat, j: nat)
    requires q.m == 1 && h <= j < q.p && Has(was, q.k.r, q.k.c + j)
    ensures At(Product(was, x, y, Left(q, h)), q.k.r, q.k.c + j) == At(was, q.k.r, q.k.c + j)
  {
    hide Product, Dot;
    ProductAt(was, x, y, Left(q, h), q.k.r, q.k.c + j);
  }

  /** FastNaiveMatrixMultiply and, when it adds, FastAdditiveNaiveMatrixMultiply: pointers
      step through the rows of A and C by their widths. */
  method FastNaive(A: Plane, B: Plane, C: Plane, q: Job)
    requires FitAll(A, B, C, q) && q.p % 8 == 0 && q.n >= 1
    modifies C.cells
    ensures Grid(C) == Product(old(Grid(C)), Grid(A), Grid(B), q)
  {
    hide Product, Grid, Size;
    ghost var was := Grid(C);
    NothingDone(was, Grid(A), Grid(B), Upper(q, 0));
    var aRow, b, c := Addr(A, q.a.r, q.a.c), Addr(B, q.b.r, q.b.c), Addr(C, q.k.r, q.k.c);
    for i := 0 to q.m
      invariant aRow == Addr(A, q.a.r + i, q.a.c) && c == Addr(C, q.k.r + i, q.k.c)
      invariant Grid(C) == Product(was, Grid(A), Grid(B), Upper(q, i))
    {
      NextRow(A, q.a.r + i, q.a.c);
      NextRow(C, q.k.r + i, q.k.c);
      hide Addr;
      aRow, c := FastRow(A, B, C, Row(q, i), aRow, b, c);
      RowDone(was, Grid(A), Grid(B), q, i);
      aRow := aRow + A.width;
      c := c + (C.width - q.p);
    }
  }

  // ---------------------------------------------------------------- divide and conquer

  /** The quadrants of the result, for one half of the inner dimension. */
  function Quadrant(q: Job, h: nat, lower: bool, right: bool): Job
    requires h <= q.m && h <= q.p
  {
    var rows := if lower then Lower(q, h) else Upper(q, h);
    if right then Right(rows, h) else Left(rows, h)
  }

  /** The four quadrants, in the order in which the program does them. */
  lemma FourQuadrants(was: Matrix, x: Matrix, y: Matrix, q: Job, h: nat)
    requires h <= q.m && h <= q.p
    ensures var p00 := Product(was, x, y, Quadrant(q, h, false, false));
            var p01 := Product(p00, x, y, Quadrant(q, h, false, true));
            var p11 := Product(p01, x, y, Quadrant(q, h, true, true));
            Product(p11, x, y, Quadrant(q, h, true, false)) == Product(was, x, y, q)
  {
    hide Product;
    SplitRows(was, x, y, q, h);
    SplitColumns(was, x, y, Upper(q, h), h);
    SplitColumns(Product(was, x, y, Upper(q, h)), x, y, Lower(q, h), h);
  }

  /** MultiplyByDivideAndConquer. */
  method DivideAndConquer(A: Plane, B: Plane, C: Plane, q: Job)
    requires FitAll(A, B, C, q) && q.m == q.n == q.p && PowerOfTwo(q.n)
    modifies C.cells
    ensures Grid(C) == Product(old(Grid(C)), Grid(A), Grid(B), q)
    decreases q.n
  {
    hide Product, Grid, Size;
    var h := q.n / 2;
    SplitInner(Grid(C), Grid(A), Grid(B), q, h);
    HalfProduct(A, B, C, First(q, h), h);
    HalfProduct(A, B, C, Second(q, h), h);
  }

  /** The four quadrants of the result for one half of the inner dimension. */
  method HalfProduct(A: Plane, B: Plane, C: Plane, q: Job, h: nat)
    requires FitAll(A, B, C, q) && q.m == q.p == 2 * h && q.n == h && PowerOfTwo(2 * h)
    modifies C.cells
    ensures Grid(C) == Product(old(Grid(C)), Grid(A), Grid(B), q)
    decreases 2 * h, 0
  {
    hide Product, Grid, Size;
    FourQuadrants(Grid(C), Grid(A), Grid(B), q, h);
    if h > NAIVE_SIZE {
      DivideAndConquer(A, B, C, Quadrant(q, h, false, false));
      DivideAndConquer(A, B, C, Quadrant(q, h, false, true));
      DivideAndConquer(A, B, C, Quadrant(q, h, true, true));
      DivideAndConquer(A, B, C, Quadrant(q, h, true, false));
    } else {
      FastNaive(A, B, C, Quadrant(q, h, false, false));
      FastNaive(A, B, C, Quadrant(q, h, false, true));
      FastNaive(A, B, C, Quadrant(q, h, true, true));
      FastNaive(A, B, C, Quadrant(q, h, true, false));
    }
  }
}
