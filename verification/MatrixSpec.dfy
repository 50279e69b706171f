/**
 Matrices over exact numbers: a two-dimensional array as a value, and what it means to put
 the product of two blocks into a block of a third matrix.
 */
module MatrixSpec {
  type Matrix = seq<seq<real>>

  /** The upper left corner of a block. */
  datatype Corner = Corner(r: nat, c: nat)

  function At(m: Matrix, r: nat, c: nat): real {
    if r < |m| && c < |m[r]| then m[r][c] else 0.0
  }

  predicate Has(m: Matrix, r: nat, c: nat) {
    r < |m| && c < |m[r]|
  }

  /** Two matrices with the same cells are the same. */
  lemma SameMatrix(x: Matrix, y: Matrix)
    requires |x| == |y| && forall r :: 0 <= r < |x| ==> |x[r]| == |y[r]|
    requires forall r: nat, c: nat :: Has(x, r, c) ==> At(x, r, c) == At(y, r, c)
    ensures x == y
  {
    forall r | 0 <= r < |x| ensures x[r] == y[r] {
      forall c | 0 <= c < |x[r]| ensures x[r][c] == y[r][c] {
        assert Has(x, r, c);
      }
    }
  }

  /** Row i of a block times column j of another. */
  ghost function Dot(x: Matrix, a: Corner, y: Matrix, b: Corner, i: nat, j: nat, n: nat): real {
    if n == 0 then 0.0
    else Dot(x, a, y, b, i, j, n - 1) + At(x, a.r + i, a.c + n - 1) * At(y, b.r + n - 1, b.c + j)
  }

  lemma {:induction false} DotShift(x: Matrix, a: Corner, y: Matrix, b: Corner, i: nat, j: nat, n: nat, di: nat, dj: nat)
    ensures Dot(x, Corner(a.r + di, a.c), y, Corner(b.r, b.c + dj), i, j, n) == Dot(x, a, y, b, di + i, dj + j, n)
    decreases n
  {
    if n > 0 {
      DotShift(x, a, y, b, i, j, n - 1, di, dj);
    }
  }

  lemma {:induction false} DotSplit(x: Matrix, a: Corner, y: Matrix, b: Corner, i: nat, j: nat, n1: nat, n2: nat)
    ensures Dot(x, a, y, b, i, j, n1 + n2)
         == Dot(x, a, y, b, i, j, n1) + Dot(x, Corner(a.r, a.c + n1), y, Corner(b.r + n1, b.c), i, j, n2)
    decreases n2
  {
    if n2 > 0 {
      DotSplit(x, a, y, b, i, j, n1, n2 - 1);
    }
  }

  predicate Within(k: Corner, m: nat, p: nat, r: nat, c: nat) {
    k.r <= r < k.r + m && k.c <= c < k.c + p
  }

  /** A multiplication: the m by p block of the result at k, and the m by n and n by p blocks
      at a and b of the factors. */
  datatype Job = Job(k: Corner, m: nat, p: nat, add: bool, a: Corner, b: Corner, n: nat)

  ghost function Cell(was: Matrix, x: Matrix, y: Matrix, q: Job, r: nat, c: nat): real {
    if Within(q.k, q.m, q.p, r, c)
    then (if q.add then At(was, r, c) else 0.0) + Dot(x, q.a, y, q.b, r - q.k.r, c - q.k.c, q.n)
    else At(was, r, c)
  }

  /** The matrix after a multiplication: its block is the product, or the old block plus the
      product, and nothing else changes. */
  ghost function Product(was: Matrix, x: Matrix, y: Matrix, q: Job): (now: Matrix)
    ensures |now| == |was| && forall r :: 0 <= r < |was| ==> |now[r]| == |was[r]|
  {
    seq(|was|, r requires 0 <= r < |was| =>
      seq(|was[r]|, c requires 0 <= c < |was[r]| => Cell(was, x, y, q, r, c)))
  }

  lemma ProductAt(was: Matrix, x: Matrix, y: Matrix, q: Job, r: nat, c: nat)
    requires Has(was, r, c)
    ensures Has(Product(was, x, y, q), r, c) && At(Product(was, x, y, q), r, c) == Cell(was, x, y, q, r, c)
  {
    hide Cell;
  }

  /** A multiplication whose cells are those of two others in a row is those two in a row. */
  lemma TwoProducts(was: Matrix, x: Matrix, y: Matrix, q1: Job, q2: Job, q: Job)
    requires forall r: nat, c: nat :: Has(was, r, c) ==>
               Cell(Product(was, x, y, q1), x, y, q2, r, c) == Cell(was, x, y, q, r, c)
    ensures Product(Product(was, x, y, q1), x, y, q2) == Product(was, x, y, q)
  {
    hide Cell;
    var mid := Product(was, x, y, q1);
    forall r: nat, c: nat | Has(Product(was, x, y, q), r, c)
      ensures At(Product(mid, x, y, q2), r, c) == At(Product(was, x, y, q), r, c)
    {
      assert Has(was, r, c) && Has(mid, r, c);
      ProductAt(mid, x, y, q2, r, c);
      ProductAt(was, x, y, q, r, c);
    }
    SameMatrix(Product(was, x, y, q), Product(mid, x, y, q2));
  }

  function Upper(q: Job, m1: nat): Job { q.(m := m1) }

  function Lower(q: Job, m1: nat): Job
    requires m1 <= q.m
  {
    q.(k := Corner(q.k.r + m1, q.k.c), m := q.m - m1, a := Corner(q.a.r + m1, q.a.c))
  }

  function Left(q: Job, p1: nat): Job { q.(p := p1) }

  function Right(q: Job, p1: nat): Job
    requires p1 <= q.p
  {
    q.(k := Corner(q.k.r, q.k.c + p1), p := q.p - p1, b := Corner(q.b.r, q.b.c + p1))
  }

  function First(q: Job, n1: nat): Job { q.(n := n1) }

  function Second(q: Job, n1: nat): Job
    requires n1 <= q.n
  {
    q.(add := true, a := Corner(q.a.r, q.a.c + n1), b := Corner(q.b.r + n1, q.b.c), n := q.n - n1)
  }

  /** Rows can be done in two parts, in either order. */
  lemma SplitRows(was: Matrix, x: Matrix, y: Matrix, q: Job, m1: nat)
    requires m1 <= q.m
    ensures Product(Product(was, x, y, Upper(q, m1)), x, y, Lower(q, m1)) == Product(was, x, y, q)
    ensures Product(Product(was, x, y, Lower(q, m1)), x, y, Upper(q, m1)) == Product(was, x, y, q)
  {
    hide Product, Dot, At;
    var u, l := Upper(q, m1), Lower(q, m1);
    forall r: nat, c: nat | Has(was, r, c)
      ensures Cell(Product(was, x, y, u), x, y, l, r, c) == Cell(was, x, y, q, r, c)
      ensures Cell(Product(was, x, y, l), x, y, u, r, c) == Cell(was, x, y, q, r, c)
    {
      ProductAt(was, x, y, u, r, c);
      ProductAt(was, x, y, l, r, c);
      if Within(l.k, l.m, l.p, r, c) {
        DotShift(x, q.a, y, q.b, r - l.k.r, c - l.k.c, q.n, m1, 0);
      }
    }
    TwoProducts(was, x, y, u, l, q);
    TwoProducts(was, x, y, l, u, q);
  }

  /** Columns can be done in two parts, in either order. */
  lemma SplitColumns(was: Matrix, x: Matrix, y: Matrix, q: Job, p1: nat)
    requires p1 <= q.p
    ensures Product(Product(was, x, y, Left(q, p1)), x, y, Right(q, p1)) == Product(was, x, y, q)
    ensures Product(Product(was, x, y, Right(q, p1)), x, y, Left(q, p1)) == Product(was, x, y, q)
  {
    hide Product, Dot, At;
    var u, l := Left(q, p1), Right(q, p1);
    forall r: nat, c: nat | Has(was, r, c)
      ensures Cell(Product(was, x, y, u), x, y, l, r, c) == Cell(was, x, y, q, r, c)
      ensures Cell(Product(was, x, y, l), x, y, u, r, c) == Cell(was, x, y, q, r, c)
    {
      ProductAt(was, x, y, u, r, c);
      ProductAt(was, x, y, l, r, c);
      if Within(l.k, l.m, l.p, r, c) {
        DotShift(x, q.a, y, q.b, r - l.k.r, c - l.k.c, q.n, 0, p1);
      }
    }
    TwoProducts(was, x, y, u, l, q);
    TwoProducts(was, x, y, l, u, q);
  }

  /** The inner dimension can be done in two parts, the second one adding to the first. */
  lemma SplitInner(was: Matrix, x: Matrix, y: Matrix, q: Job, n1: nat)
    requires n1 <= q.n
    ensures Product(Product(was, x, y, First(q, n1)), x, y, Second(q, n1)) == Product(was, x, y, q)
  {
    hide Product, Dot, At;
    var f, s := First(q, n1), Second(q, n1);
    forall r: nat, c: nat | Has(was, r, c)
      ensures Cell(Product(was, x, y, f), x, y, s, r, c) == Cell(was, x, y, q, r, c)
    {
      ProductAt(was, x, y, f, r, c);
      if Within(q.k, q.m, q.p, r, c) {
        DotSplit(x, q.a, y, q.b, r - q.k.r, c - q.k.c, n1, q.n - n1);
      }
    }
    TwoProducts(was, x, y, f, s, q);
  }

  /** Multiplications into disjoint blocks give the same matrix in either order. */
  lemma DisjointCommute(was: Matrix, x: Matrix, y: Matrix, q: Job, u: Matrix, v: Matrix, p: Job)
    requires forall r: nat, c: nat :: !(Within(q.k, q.m, q.p, r, c) && Within(p.k, p.m, p.p, r, c))
    ensures Product(Product(was, x, y, q), u, v, p) == Product(Product(was, u, v, p), x, y, q)
  {
    hide Product, Dot, At;
    var first, second := Product(was, x, y, q), Product(was, u, v, p);
    forall r: nat, c: nat | Has(Product(first, u, v, p), r, c)
      ensures At(Product(first, u, v, p), r, c) == At(Product(second, x, y, q), r, c)
    {
      assert Has(was, r, c) && Has(first, r, c) && Has(second, r, c);
      ProductAt(was, x, y, q, r, c);
      ProductAt(was, u, v, p, r, c);
      ProductAt(first, u, v, p, r, c);
      ProductAt(second, x, y, q, r, c);
    }
    SameMatrix(Product(first, u, v, p), Product(second, x, y, q));
  }
}
