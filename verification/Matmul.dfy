/**
 Recursive matrix multiplication (benchmarks/matmul/matmul-lace.c), on matrices that lie in
 memory with a leading dimension; numbers are exact.
 */
module Matmul {
  import opened MatrixSpec
  import opened Planes

  /** Row i of a multiplication. */
  function Row(q: Job, i: nat): Job
    requires i < q.m
  {
    Lower(q, i).(m := 1)
  }

  lemma RowDone(was: Matrix, x: Matrix, y: Matrix, q: Job, i: nat)
    requires i < q.m
    ensures Product(Product(was, x, y, Upper(q, i)), x, y, Row(q, i)) == Product(was, x, y, Upper(q, i + 1))
  {
    hide Product;
    SplitRows(was, x, y, Upper(q, i + 1), i);
  }

  lemma SetAt(m: Matrix, r: nat, c: nat, v: real, r': nat, c': nat)
    requires Has(m, r, c)
    ensures Has(SetCell(m, r, c, v), r', c') <==> Has(m, r', c')
    ensures At(SetCell(m, r, c, v), r', c') == if r' == r && c' == c then v else At(m, r', c')
  {
  }

  /** Nothing was done yet. */
  lemma NothingDone(was: Matrix, x: Matrix, y: Matrix, q: Job)
    requires q.m == 0 || q.p == 0
    ensures Product(was, x, y, q) == was
  {
    forall r: nat, c: nat | Has(was, r, c) ensures At(was, r, c) == At(Product(was, x, y, q), r, c) {
      ProductAt(was, x, y, q, r, c);
    }
    SameMatrix(was, Product(was, x, y, q));
  }

  /** Writing one more cell of a row. */
  lemma CellDone(was: Matrix, x: Matrix, y: Matrix, q: Job, j: nat, v: real)
    requires q.m == 1 && j < q.p && Has(was, q.k.r, q.k.c + j)
    requires v == (if q.add then At(was, q.k.r, q.k.c + j) else 0.0) + Dot(x, q.a, y, q.b, 0, j, q.n)
    ensures Has(Product(was, x, y, Left(q, j)), q.k.r, q.k.c + j)
    ensures At(Product(was, x, y, Left(q, j)), q.k.r, q.k.c + j) == At(was, q.k.r, q.k.c + j)
    ensures SetCell(Product(was, x, y, Left(q, j)), q.k.r, q.k.c + j, v) == Product(was, x, y, Left(q, j + 1))
  {
    hide Product, Dot;
    var now, r0, c0 := Product(was, x, y, Left(q, j)), q.k.r, q.k.c + j;
    ProductAt(was, x, y, Left(q, j), r0, c0);
    var next := SetCell(now, r0, c0, v);
    forall r: nat, c: nat | Has(next, r, c) ensures At(next, r, c) == At(Product(was, x, y, Left(q, j + 1)), r, c) {
      SetAt(now, r0, c0, v, r, c);
      ProductAt(was, x, y, Left(q, j), r, c);
      ProductAt(was, x, y, Left(q, j + 1), r, c);
    }
    SameMatrix(next, Product(was, x, y, Left(q, j + 1)));
  }

  /** The inner loop: one row of A times one column of B. */
  method Inner(A: Plane, a: Corner, B: Plane, b: Corner, i: nat, k: nat, n: nat) returns (c: real)
    requires Fits(A, a, i + 1, n) && Fits(B, b, n, k + 1)
    ensures c == Dot(Grid(A), a, Grid(B), b, i, k, n)
  {
    hide Grid, Get, Addr;
    c := 0.0;
    for j := 0 to n
      invariant c == Dot(Grid(A), a, Grid(B), b, i, k, j)
    {
      GridAt(A, a.r + i, a.c + j);
      GridAt(B, b.r + j, b.c + k);
      c := c + Get(A, a.r + i, a.c + j) * Get(B, b.r + j, b.c + k);
    }
  }

  /** One row of the base case. */
  method BaseRow(A: Plane, B: Plane, C: Plane, q: Job)
    requires C.cells != A.cells && C.cells != B.cells && q.m == 1
    requires Fits(A, q.a, 1, q.n) && Fits(B, q.b, q.n, q.p) && Fits(C, q.k, 1, q.p)
    modifies C.cells
    ensures Grid(C) == Product(old(Grid(C)), Grid(A), Grid(B), q)
  {
    hide Product, Dot, Grid, Size, Get, Addr;
    ghost var was := Grid(C);
    NothingDone(was, Grid(A), Grid(B), Left(q, 0));
    for k := 0 to q.p
      invariant Grid(C) == Product(was, Grid(A), Grid(B), Left(q, k))
    {
      var c := Inner(A, q.a, B, q.b, 0, k, q.n);
      var r, col := q.k.r, q.k.c + k;
      GridAt(C, r, col);
      ProductHas(was, Grid(A), Grid(B), Left(q, k), r, col);
      CellDone(was, Grid(A), Grid(B), q, k, (if q.add then At(was, r, col) else 0.0) + c);
      if q.add {
        Store(C, r, col, Addr(C, r, col), Get(C, r, col) + c);
      } else {
        Store(C, r, col, Addr(C, r, col), c);
      }
    }
  }

  lemma ProductHas(was: Matrix, x: Matrix, y: Matrix, q: Job, r: nat, c: nat)
    ensures Has(Product(was, x, y, q), r, c) <==> Has(was, r, c)
  {
    hide Product;
  }

  /** The base case of rec_matmul. */
  method Base(A: Plane, B: Plane, C: Plane, q: Job)
    requires C.cells != A.cells && C.cells != B.cells
    requires Fits(A, q.a, q.m, q.n) && Fits(B, q.b, q.n, q.p) && Fits(C, q.k, q.m, q.p)
    modifies C.cells
    ensures Grid(C) == Product(old(Grid(C)), Grid(A), Grid(B), q)
  {
    hide Product, Grid, Size;
    ghost var was := Grid(C);
    NothingDone(was, Grid(A), Grid(B), Upper(q, 0));
    for i := 0 to q.m
      invariant Grid(C) == Product(was, Grid(A), Grid(B), Upper(q, i))
    {
      BaseRow(A, B, C, Row(q, i));
      RowDone(was, Grid(A), Grid(B), q, i);
    }
  }

  /** The two recursive calls that rec_matmul makes above its base case. */
  function Calls(q: Job): (c: (Job, Job))
    requires q.m + q.n + q.p > 64
  {
    if q.m >= q.n && q.n >= q.p then (Upper(q, q.m / 2), Lower(q, q.m / 2))
    else if q.n >= q.m && q.n >= q.p then (First(q, q.n / 2), Second(q, q.n / 2))
    else (Left(q, q.p / 2), Right(q, q.p / 2))
  }

  /** An inner dimension of zero with 64 rows or more, and columns to halve. */
  predicate Endless(q: Job) {
    q.n == 0 && q.p >= 1 && q.m >= 64
  }

  /** An endless call makes an endless call, and at one column that is the same call again;
      any other call makes smaller calls, which are not endless. */
  lemma EndlessCalls(q: Job)
    requires q.m + q.n + q.p > 64
    ensures Endless(q) <==> Endless(Calls(q).0) || Endless(Calls(q).1)
    ensures Calls(q).1 == q <==> Endless(q) && q.p == 1
    ensures !Endless(q) ==> Smaller(Calls(q).0, q) && Smaller(Calls(q).1, q)
  {
  }

  predicate Positive(q: Job) {
    q.m >= 1 && q.n >= 1 && q.p >= 1
  }

  /** A call with dimensions of at least one is not endless and makes only such calls. */
  lemma PositiveCalls(q: Job)
    requires q.m + q.n + q.p > 64 && Positive(q)
    ensures !Endless(q) && Positive(Calls(q).0) && Positive(Calls(q).1)
  {
  }

  predicate Smaller(q: Job, than: Job) {
    q.m + q.n + q.p < than.m + than.n + than.p
  }

  /** The recursion ends within the given depth. */
  predicate Ends(q: Job, depth: nat)
    decreases depth
  {
    q.m + q.n + q.p <= 64 || (depth > 0 && Ends(Calls(q).0, depth - 1) && Ends(Calls(q).1, depth - 1))
  }

  lemma {:induction false} NeverEnds(q: Job, depth: nat)
    requires Endless(q)
    ensures !Ends(q, depth)
    decreases depth
  {
    if depth > 0 {
      EndlessCalls(q);
      if Endless(Calls(q).0) {
        NeverEnds(Calls(q).0, depth - 1);
      } else {
        NeverEnds(Calls(q).1, depth - 1);
      }
    }
  }

  lemma {:induction false} EndsInTime(q: Job, depth: nat)
    requires !Endless(q) && q.m + q.n + q.p <= depth
    ensures Ends(q, depth)
    decreases depth
  {
    hide Calls, Endless;
    if q.m + q.n + q.p > 64 {
      EndlessCalls(q);
      EndsInTime(Calls(q).0, depth - 1);
      EndsInTime(Calls(q).1, depth - 1);
    }
  }

  ghost predicate Returns(q: Job) {
    exists depth: nat :: Ends(q, depth)
  }

  /** Exactly which calls of rec_matmul return. */
  lemma EndsExactly(q: Job)
    ensures Returns(q) <==> !Endless(q)
  {
    if Endless(q) {
      forall depth: nat ensures !Ends(q, depth) {
        NeverEnds(q, depth);
      }
    } else {
      EndsInTime(q, q.m + q.n + q.p);
    }
  }

  /** A call that never returns: 100 rows, an inner dimension of zero and one column. */
  lemma CallsItself()
    ensures var q := Job(Corner(0, 0), 100, 1, false, Corner(0, 0), Corner(0, 0), 0);
            Calls(q).1 == q && !Returns(q)
  {
    EndsExactly(Job(Corner(0, 0), 100, 1, false, Corner(0, 0), Corner(0, 0), 0));
  }

  /** The operands and the block of the result lie in memory. */
  ghost predicate FitAll(A: Plane, B: Plane, C: Plane, q: Job) {
    && C.cells != A.cells && C.cells != B.cells
    && Fits(A, q.a, q.m, q.n) && Fits(B, q.b, q.n, q.p) && Fits(C, q.k, q.m, q.p)
  }

  /** rec_matmul: the block of C becomes the product, or grows by it, and nothing else of C
      changes. */
  method RecMatmul(A: Plane, B: Plane, C: Plane, q: Job)
    requires FitAll(A, B, C, q) && !Endless(q)
    modifies C.cells
    ensures Grid(C) == Product(old(Grid(C)), Grid(A), Grid(B), q)
    decreases q.m + q.n + q.p, 0
  {
    hide Product, Grid, Size, Endless;
    if q.m + q.n + q.p <= 64 {
      Base(A, B, C, q);
      return;
    }
    EndlessCalls(q);
    if q.m >= q.n && q.n >= q.p {
      var m1 := q.m / 2;
      SplitRows(Grid(C), Grid(A), Grid(B), q, m1);
      SpawnAndCall(A, B, C, Upper(q, m1), Lower(q, m1));
    } else if q.n >= q.m && q.n >= q.p {
      var n1 := q.n / 2;
      SplitInner(Grid(C), Grid(A), Grid(B), q, n1);
      RecMatmul(A, B, C, First(q, n1));
      RecMatmul(A, B, C, Second(q, n1));
    } else {
      var p1 := q.p / 2;
      SplitColumns(Grid(C), Grid(A), Grid(B), q, p1);
      SpawnAndCall(A, B, C, Left(q, p1), Right(q, p1));
    }
  }

  /** A half that is spawned and a half that is called, in either order. */
  method SpawnAndCall(A: Plane, B: Plane, C: Plane, u: Job, v: Job)
    requires FitAll(A, B, C, u) && !Endless(u) && FitAll(A, B, C, v) && !Endless(v)
    requires Product(Product(Grid(C), Grid(A), Grid(B), u), Grid(A), Grid(B), v)
          == Product(Product(Grid(C), Grid(A), Grid(B), v), Grid(A), Grid(B), u)
    modifies C.cells
    ensures Grid(C) == Product(Product(old(Grid(C)), Grid(A), Grid(B), u), Grid(A), Grid(B), v)
    decreases if Smaller(u, v) then v.m + v.n + v.p else u.m + u.n + u.p, 1
  {
    hide Product, Grid, Size, Fits;
    if * {
      RecMatmul(A, B, C, u);
      RecMatmul(A, B, C, v);
    } else {
      RecMatmul(A, B, C, v);
      RecMatmul(A, B, C, u);
    }
  }
}
