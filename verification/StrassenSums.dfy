/**
 The sums of quadrants at the start of OptimizedStrassenMultiply
 (benchmarks/strassen/strassen-lace.c): one loop nest fills eight tables, with offsets that
 step through the rows of the operands and of the tables.
 */
module StrassenSums {
  import opened MatrixSpec
  import opened Planes
  import opened Matmul
  import opened Winograd

  // ---------------------------------------------------------------- pointers into quadrants

  /** Pointers into the four quadrants of a block. */
  datatype Quads = Quads(p11: nat, p12: nat, p21: nat, p22: nat)

  /** The quadrants' first elements. */
  function Starts(p: Plane, k: Corner, h: nat): Quads {
    var p11 := Addr(p, k.r, k.c);
    var p21 := p11 + p.width * h;
    Quads(p11, p11 + h, p21, p21 + h)
  }

  function Shift(q: Quads, off: nat): Quads {
    Quads(q.p11 + off, q.p12 + off, q.p21 + off, q.p22 + off)
  }

  /** Where row r and column c of each quadrant are. */
  function Place(p: Plane, k: Corner, h: nat, r: nat, c: nat): Quads {
    Quads(Addr(p, k.r + r, k.c + c), Addr(p, k.r + r, k.c + h + c),
          Addr(p, k.r + h + r, k.c + c), Addr(p, k.r + h + r, k.c + h + c))
  }

  lemma PlaceStarts(p: Plane, k: Corner, h: nat)
    ensures Place(p, k, h, 0, 0) == Starts(p, k, h)
  {
    assert (k.r + h) * p.width == k.r * p.width + p.width * h;
  }

  lemma PlaceNext(p: Plane, k: Corner, h: nat, r: nat, c: nat, n: nat)
    ensures Place(p, k, h, r, c + n) == Shift(Place(p, k, h, r, c), n)
  {
  }

  lemma PlaceRow(p: Plane, k: Corner, h: nat, r: nat)
    requires h <= p.width
    ensures Place(p, k, h, r + 1, 0) == Shift(Place(p, k, h, r, h), p.width - h)
  {
    NextRow(p, k.r + r, k.c);
    NextRow(p, k.r + h + r, k.c);
    PlaceNext(p, k, h, r, 0, h);
  }

  /** What the pointers point to. */
  lemma PlacePoints(p: Plane, k: Corner, h: nat, r: nat, c: nat)
    requires Fits(p, k, 2 * h, 2 * h) && r < h && c < h
    ensures var at := Place(p, k, h, r, c);
            && at.p11 < p.cells.Length && at.p12 < p.cells.Length && at.p21 < p.cells.Length && at.p22 < p.cells.Length
            && p.cells[at.p11] == At(Grid(p), k.r + r, k.c + c)
            && p.cells[at.p12] == At(Grid(p), k.r + r, k.c + h + c)
            && p.cells[at.p21] == At(Grid(p), k.r + h + r, k.c + c)
            && p.cells[at.p22] == At(Grid(p), k.r + h + r, k.c + h + c)
  {
    hide Addr, Grid, At;
    Points(p, k.r + r, k.c + c, Addr(p, k.r + r, k.c + c));
    Points(p, k.r + r, k.c + h + c, Addr(p, k.r + r, k.c + h + c));
    Points(p, k.r + h + r, k.c + c, Addr(p, k.r + h + r, k.c + c));
    Points(p, k.r + h + r, k.c + h + c, Addr(p, k.r + h + r, k.c + h + c));
  }

  // ---------------------------------------------------------------- the sums of quadrants

  /** The k-th sum of quadrants at row i and column j. */
  ghost function SumCell(k: nat, x: Matrix, a: Corner, h: nat, i: nat, j: nat): real {
    var q11, q12 := At(x, a.r + i, a.c + j), At(x, a.r + i, a.c + h + j);
    var q21, q22 := At(x, a.r + h + i, a.c + j), At(x, a.r + h + i, a.c + h + j);
    if k == 1 then q21 + q22
    else if k == 2 then q21 + q22 - q11
    else if k == 3 then q11 - q21
    else if k == 4 then q12 - (q21 + q22 - q11)
    else if k == 5 then q12 - q11
    else if k == 6 then q22 - (q12 - q11)
    else if k == 7 then q22 - q12
    else q22 - (q12 - q11) - q21
  }

  /** The table whose cells before row r and column c hold the k-th sum. */
  ghost function Part(was: Matrix, k: nat, x: Matrix, a: Corner, h: nat, r: nat, c: nat): (m: Matrix)
    ensures |m| == |was| && forall i :: 0 <= i < |was| ==> |m[i]| == |was[i]|
  {
    seq(|was|, i requires 0 <= i < |was| => seq(|was[i]|, j requires 0 <= j < |was[i]| =>
      if i < r || (i == r && j < c) then SumCell(k, x, a, h, i, j) else was[i][j]))
  }

  lemma PartAt(was: Matrix, k: nat, x: Matrix, a: Corner, h: nat, r: nat, c: nat, i: nat, j: nat)
    requires Has(was, i, j)
    ensures Has(Part(was, k, x, a, h, r, c), i, j)
    ensures At(Part(was, k, x, a, h, r, c), i, j)
         == if i < r || (i == r && j < c) then SumCell(k, x, a, h, i, j) else At(was, i, j)
  {
    hide SumCell;
  }

  lemma PartNext(was: Matrix, k: nat, x: Matrix, a: Corner, h: nat, r: nat, c: nat)
    requires Has(was, r, c)
    ensures Has(Part(was, k, x, a, h, r, c), r, c)
    ensures SetCell(Part(was, k, x, a, h, r, c), r, c, SumCell(k, x, a, h, r, c)) == Part(was, k, x, a, h, r, c + 1)
  {
    hide SumCell, Part;
    var m, next := Part(was, k, x, a, h, r, c), Part(was, k, x, a, h, r, c + 1);
    PartAt(was, k, x, a, h, r, c, r, c);
    forall i: nat, j: nat | Has(next, i, j) ensures At(next, i, j) == At(SetCell(m, r, c, SumCell(k, x, a, h, r, c)), i, j) {
      SetAt(m, r, c, SumCell(k, x, a, h, r, c), i, j);
      PartAt(was, k, x, a, h, r, c, i, j);
      PartAt(was, k, x, a, h, r, c + 1, i, j);
    }
    SameMatrix(next, SetCell(m, r, c, SumCell(k, x, a, h, r, c)));
  }

  lemma PartRow(was: Matrix, k: nat, x: Matrix, a: Corner, h: nat, r: nat)
    requires |was| == h && forall i :: 0 <= i < h ==> |was[i]| == h
    ensures Part(was, k, x, a, h, r, h) == Part(was, k, x, a, h, r + 1, 0)
    ensures Part(was, k, x, a, h, 0, 0) == was
  {
    hide SumCell, Part;
    var m, next := Part(was, k, x, a, h, r, h), Part(was, k, x, a, h, r + 1, 0);
    forall i: nat, j: nat | Has(m, i, j)
      ensures At(m, i, j) == At(next, i, j) && At(Part(was, k, x, a, h, 0, 0), i, j) == At(was, i, j)
    {
      PartAt(was, k, x, a, h, r, h, i, j);
      PartAt(was, k, x, a, h, r + 1, 0, i, j);
      PartAt(was, k, x, a, h, 0, 0, i, j);
    }
    SameMatrix(m, next);
    SameMatrix(Part(was, k, x, a, h, 0, 0), was);
  }

  /** A table of the k-th sum. */
  ghost predicate Tabled(m: Matrix, k: nat, x: Matrix, a: Corner, h: nat) {
    forall i: nat, j: nat :: i < h && j < h ==> At(m, i, j) == SumCell(k, x, a, h, i, j)
  }

  lemma PartTabled(was: Matrix, k: nat, x: Matrix, a: Corner, h: nat)
    requires |was| == h && forall i :: 0 <= i < h ==> |was[i]| == h
    ensures Tabled(Part(was, k, x, a, h, h, 0), k, x, a, h)
  {
    hide Part, SumCell;
    forall i: nat, j: nat | i < h && j < h ensures At(Part(was, k, x, a, h, h, 0), i, j) == SumCell(k, x, a, h, i, j) {
      PartAt(was, k, x, a, h, h, 0, i, j);
    }
  }

  ghost predicate Square(s: Plane, h: nat) {
    s.Valid() && s.rows == h && s.width == h
  }

  /** The eight tables. */
  datatype Tables = Tables(s1: Plane, s2: Plane, s3: Plane, s4: Plane, s5: Plane, s6: Plane, s7: Plane, s8: Plane)

  ghost function Cells(t: Tables): set<array<real>> {
    {t.s1.cells, t.s2.cells, t.s3.cells, t.s4.cells, t.s5.cells, t.s6.cells, t.s7.cells, t.s8.cells}
  }

  ghost predicate Squares(t: Tables, h: nat) {
    && Square(t.s1, h) && Square(t.s2, h) && Square(t.s3, h) && Square(t.s4, h)
    && Square(t.s5, h) && Square(t.s6, h) && Square(t.s7, h) && Square(t.s8, h)
  }

  /** No two tables share memory. */
  ghost predicate Distinct(t: Tables) {
    && t.s1.cells != t.s2.cells && t.s1.cells != t.s3.cells && t.s1.cells != t.s4.cells
    && t.s2.cells != t.s3.cells && t.s2.cells != t.s4.cells && t.s3.cells != t.s4.cells
    && t.s5.cells != t.s6.cells && t.s5.cells != t.s7.cells && t.s5.cells != t.s8.cells
    && t.s6.cells != t.s7.cells && t.s6.cells != t.s8.cells && t.s7.cells != t.s8.cells
    && {t.s1.cells, t.s2.cells, t.s3.cells, t.s4.cells} !! {t.s5.cells, t.s6.cells, t.s7.cells, t.s8.cells}
  }

  ghost function Contents(t: Tables, h: nat): Sums
    requires Squares(t, h)
    reads Cells(t)
  {
    Sums(Grid(t.s1), Grid(t.s2), Grid(t.s3), Grid(t.s4), Grid(t.s5), Grid(t.s6), Grid(t.s7), Grid(t.s8))
  }

  lemma TableAddr(s: Plane, h: nat, r: nat, c: nat)
    requires Square(s, h)
    ensures Addr(s, r, c) == r * h + c
  {
  }

  /** One cell of four tables. */
  method StoreFour(p1: Plane, p2: Plane, p3: Plane, p4: Plane, ghost h: nat, ghost r: nat, ghost c: nat, at: nat,
                   v1: real, v2: real, v3: real, v4: real)
    requires Square(p1, h) && Square(p2, h) && Square(p3, h) && Square(p4, h) && r < h && c < h && at == r * h + c
    requires p1.cells != p2.cells && p1.cells != p3.cells && p1.cells != p4.cells
    requires p2.cells != p3.cells && p2.cells != p4.cells && p3.cells != p4.cells
    modifies p1.cells, p2.cells, p3.cells, p4.cells
    ensures Grid(p1) == SetCell(old(Grid(p1)), r, c, v1) && Grid(p2) == SetCell(old(Grid(p2)), r, c, v2)
    ensures Grid(p3) == SetCell(old(Grid(p3)), r, c, v3) && Grid(p4) == SetCell(old(Grid(p4)), r, c, v4)
  {
    TableAddr(p1, h, r, c);
    TableAddr(p2, h, r, c);
    TableAddr(p3, h, r, c);
    TableAddr(p4, h, r, c);
    hide Grid, Size, SetCell, Addr;
    Store(p1, r, c, at, v1);
    Store(p2, r, c, at, v2);
    Store(p3, r, c, at, v3);
    Store(p4, r, c, at, v4);
  }

  /** One cell of S1 to S4. */
  method FillLeft(A: Plane, ghost a: Corner, h: nat, S: Tables, ghost r: nat, ghost c: nat,
                  from: Quads, off: nat, at: nat)
    requires Fits(A, a, 2 * h, 2 * h) && Squares(S, h) && Distinct(S) && A.cells !in Cells(S) && r < h && c < h
    requires Shift(from, off) == Place(A, a, h, r, c) && at == r * h + c
    modifies S.s1.cells, S.s2.cells, S.s3.cells, S.s4.cells
    ensures Grid(S.s1) == SetCell(old(Grid(S.s1)), r, c, SumCell(1, Grid(A), a, h, r, c))
    ensures Grid(S.s2) == SetCell(old(Grid(S.s2)), r, c, SumCell(2, Grid(A), a, h, r, c))
    ensures Grid(S.s3) == SetCell(old(Grid(S.s3)), r, c, SumCell(3, Grid(A), a, h, r, c))
    ensures Grid(S.s4) == SetCell(old(Grid(S.s4)), r, c, SumCell(4, Grid(A), a, h, r, c))
  {
    PlacePoints(A, a, h, r, c);
    hide Grid, Size, SetCell, Place, At;
    var s1 := A.cells[from.p21 + off] + A.cells[from.p22 + off];
    var s2 := s1 - A.cells[from.p11 + off];
    var s4 := A.cells[from.p12 + off] - s2;
    var s3 := A.cells[from.p11 + off] - A.cells[from.p21 + off];
    StoreFour(S.s1, S.s2, S.s4, S.s3, h, r, c, at, s1, s2, s4, s3);
  }

  /** One cell of S5 to S8. */
  method FillRight(B: Plane, ghost b: Corner, h: nat, S: Tables, ghost r: nat, ghost c: nat,
                  from: Quads, off: nat, at: nat)
    requires Fits(B, b, 2 * h, 2 * h) && Squares(S, h) && Distinct(S) && B.cells !in Cells(S) && r < h && c < h
    requires Shift(from, off) == Place(B, b, h, r, c) && at == r * h + c
    modifies S.s5.cells, S.s6.cells, S.s7.cells, S.s8.cells
    ensures Grid(S.s5) == SetCell(old(Grid(S.s5)), r, c, SumCell(5, Grid(B), b, h, r, c))
    ensures Grid(S.s6) == SetCell(old(Grid(S.s6)), r, c, SumCell(6, Grid(B), b, h, r, c))
    ensures Grid(S.s7) == SetCell(old(Grid(S.s7)), r, c, SumCell(7, Grid(B), b, h, r, c))
    ensures Grid(S.s8) == SetCell(old(Grid(S.s8)), r, c, SumCell(8, Grid(B), b, h, r, c))
  {
    PlacePoints(B, b, h, r, c);
    hide Grid, Size, SetCell, Place, At;
    var s5 := B.cells[from.p12 + off] - B.cells[from.p11 + off];
    var s6 := B.cells[from.p22 + off] - s5;
    var s8 := s6 - B.cells[from.p21 + off];
    var s7 := B.cells[from.p22 + off] - B.cells[from.p12 + off];
    StoreFour(S.s5, S.s6, S.s8, S.s7, h, r, c, at, s5, s6, s8, s7);
  }

  /** All eight tables are filled before row r and column c. */
  ghost function Parts(w: Sums, x: Matrix, a: Corner, y: Matrix, b: Corner, h: nat, r: nat, c: nat): Sums {
    Sums(Part(w.s1, 1, x, a, h, r, c), Part(w.s2, 2, x, a, h, r, c), Part(w.s3, 3, x, a, h, r, c),
         Part(w.s4, 4, x, a, h, r, c), Part(w.s5, 5, y, b, h, r, c), Part(w.s6, 6, y, b, h, r, c),
         Part(w.s7, 7, y, b, h, r, c), Part(w.s8, 8, y, b, h, r, c))
  }

  predicate SquareMatrix(m: Matrix, h: nat) {
    |m| == h && forall i :: 0 <= i < h ==> |m[i]| == h
  }

  predicate SquareSums(w: Sums, h: nat) {
    && SquareMatrix(w.s1, h) && SquareMatrix(w.s2, h) && SquareMatrix(w.s3, h) && SquareMatrix(w.s4, h)
    && SquareMatrix(w.s5, h) && SquareMatrix(w.s6, h) && SquareMatrix(w.s7, h) && SquareMatrix(w.s8, h)
  }

  lemma PartsRow(w: Sums, x: Matrix, a: Corner, y: Matrix, b: Corner, h: nat, r: nat)
    requires SquareSums(w, h)
    ensures Parts(w, x, a, y, b, h, r, h) == Parts(w, x, a, y, b, h, r + 1, 0)
    ensures Parts(w, x, a, y, b, h, 0, 0) == w
  {
    hide Part;
    PartRow(w.s1, 1, x, a, h, r);
    PartRow(w.s2, 2, x, a, h, r);
    PartRow(w.s3, 3, x, a, h, r);
    PartRow(w.s4, 4, x, a, h, r);
    PartRow(w.s5, 5, y, b, h, r);
    PartRow(w.s6, 6, y, b, h, r);
    PartRow(w.s7, 7, y, b, h, r);
    PartRow(w.s8, 8, y, b, h, r);
  }

  lemma PartsNext(w: Sums, x: Matrix, a: Corner, y: Matrix, b: Corner, h: nat, r: nat, c: nat)
    requires SquareSums(w, h) && r < h && c < h
    ensures Has(Part(w.s1, 1, x, a, h, r, c), r, c)
    ensures SetCell(Part(w.s1, 1, x, a, h, r, c), r, c, SumCell(1, x, a, h, r, c)) == Part(w.s1, 1, x, a, h, r, c + 1)
    ensures Has(Part(w.s2, 2, x, a, h, r, c), r, c)
    ensures SetCell(Part(w.s2, 2, x, a, h, r, c), r, c, SumCell(2, x, a, h, r, c)) == Part(w.s2, 2, x, a, h, r, c + 1)
    ensures Has(Part(w.s3, 3, x, a, h, r, c), r, c)
    ensures SetCell(Part(w.s3, 3, x, a, h, r, c), r, c, SumCell(3, x, a, h, r, c)) == Part(w.s3, 3, x, a, h, r, c + 1)
    ensures Has(Part(w.s4, 4, x, a, h, r, c), r, c)
    ensures SetCell(Part(w.s4, 4, x, a, h, r, c), r, c, SumCell(4, x, a, h, r, c)) == Part(w.s4, 4, x, a, h, r, c + 1)
    ensures Has(Part(w.s5, 5, y, b, h, r, c), r, c)
    ensures SetCell(Part(w.s5, 5, y, b, h, r, c), r, c, SumCell(5, y, b, h, r, c)) == Part(w.s5, 5, y, b, h, r, c + 1)
    ensures Has(Part(w.s6, 6, y, b, h, r, c), r, c)
    ensures SetCell(Part(w.s6, 6, y, b, h, r, c), r, c, SumCell(6, y, b, h, r, c)) == Part(w.s6, 6, y, b, h, r, c + 1)
    ensures Has(Part(w.s7, 7, y, b, h, r, c), r, c)
    ensures SetCell(Part(w.s7, 7, y, b, h, r, c), r, c, SumCell(7, y, b, h, r, c)) == Part(w.s7, 7, y, b, h, r, c + 1)
    ensures Has(Part(w.s8, 8, y, b, h, r, c), r, c)
    ensures SetCell(Part(w.s8, 8, y, b, h, r, c), r, c, SumCell(8, y, b, h, r, c)) == Part(w.s8, 8, y, b, h, r, c + 1)
  {
    hide Part, SumCell, SetCell, At;
    PartNext(w.s1, 1, x, a, h, r, c);
    PartNext(w.s2, 2, x, a, h, r, c);
    PartNext(w.s3, 3, x, a, h, r, c);
    PartNext(w.s4, 4, x, a, h, r, c);
    PartNext(w.s5, 5, y, b, h, r, c);
    PartNext(w.s6, 6, y, b, h, r, c);
    PartNext(w.s7, 7, y, b, h, r, c);
    PartNext(w.s8, 8, y, b, h, r, c);
  }

  /** The body of the loop nest: one cell of every table. */
  method FillCell(A: Plane, a: Corner, B: Plane, b: Corner, h: nat, S: Tables, ghost r: nat, ghost c: nat,
                  fromA: Quads, offA: nat, fromB: Quads, offB: nat, at: nat, ghost w: Sums)
    requires Fits(A, a, 2 * h, 2 * h) && Fits(B, b, 2 * h, 2 * h) && r < h && c < h && SquareSums(w, h)
    requires Squares(S, h) && Distinct(S) && A.cells !in Cells(S) && B.cells !in Cells(S)
    requires Shift(fromA, offA) == Place(A, a, h, r, c) && Shift(fromB, offB) == Place(B, b, h, r, c) && at == r * h + c
    requires Contents(S, h) == Parts(w, Grid(A), a, Grid(B), b, h, r, c)
    modifies Cells(S)
    ensures Contents(S, h) == Parts(w, Grid(A), a, Grid(B), b, h, r, c + 1)
  {
    hide Grid, Part, SumCell, SetCell, Place, Shift, Size, At, Has, SquareSums;
    PartsNext(w, Grid(A), a, Grid(B), b, h, r, c);
    FillLeft(A, a, h, S, r, c, fromA, offA, at);
    FillRight(B, b, h, S, r, c, fromB, offB, at);
  }

  /** One row of the loop nest; the offsets move along. */
  method FillRow(A: Plane, a: Corner, B: Plane, b: Corner, h: nat, S: Tables, ghost r: nat,
                 fromA: Quads, startA: nat, fromB: Quads, startB: nat, start: nat, ghost w: Sums)
    returns (offA: nat, offB: nat, at: nat)
    requires Fits(A, a, 2 * h, 2 * h) && Fits(B, b, 2 * h, 2 * h) && r < h && SquareSums(w, h)
    requires Squares(S, h) && Distinct(S) && A.cells !in Cells(S) && B.cells !in Cells(S)
    requires Shift(fromA, startA) == Place(A, a, h, r, 0) && Shift(fromB, startB) == Place(B, b, h, r, 0) && start == r * h
    requires Contents(S, h) == Parts(w, Grid(A), a, Grid(B), b, h, r, 0)
    modifies Cells(S)
    ensures offA == startA + h && offB == startB + h && at == start + h
    ensures Contents(S, h) == Parts(w, Grid(A), a, Grid(B), b, h, r + 1, 0)
  {
    hide Grid, Part, Parts, Contents, Size, Place, Squares, SquareSums, Distinct;
    offA, offB, at := startA, startB, start;
    for c := 0 to h
      invariant offA == startA + c && offB == startB + c && at == start + c
      invariant Contents(S, h) == Parts(w, Grid(A), a, Grid(B), b, h, r, c)
    {
      PlaceNext(A, a, h, r, 0, c);
      PlaceNext(B, b, h, r, 0, c);
      FillCell(A, a, B, b, h, S, r, c, fromA, offA, fromB, offB, at, w);
      at := at + 1;
      offA := offA + 1;
      offB := offB + 1;
    }
    PartsRow(w, Grid(A), a, Grid(B), b, h, r);
  }

  /** The first loop nest. */
  method FillTables(A: Plane, a: Corner, B: Plane, b: Corner, h: nat, S: Tables)
    requires Fits(A, a, 2 * h, 2 * h) && Fits(B, b, 2 * h, 2 * h)
    requires Squares(S, h) && Distinct(S) && A.cells !in Cells(S) && B.cells !in Cells(S)
    modifies Cells(S)
    ensures SumsOf(Grid(A), a, Grid(B), b, h, Contents(S, h))
  {
    ghost var w := Contents(S, h);
    hide Grid, Part, Parts, Contents, Size, Place, Addr, Squares, Distinct, SumsOf, SquareSums;
    SquareContents(S, h);
    var fromA, fromB := Starts(A, a, h), Starts(B, b, h);
    var offA: nat, offB: nat, at: nat := 0, 0, 0;
    PlaceStarts(A, a, h);
    PlaceStarts(B, b, h);
    PartsRow(w, Grid(A), a, Grid(B), b, h, 0);
    for r := 0 to h
      invariant Shift(fromA, offA) == Place(A, a, h, r, 0) && Shift(fromB, offB) == Place(B, b, h, r, 0) && at == r * h
      invariant Contents(S, h) == Parts(w, Grid(A), a, Grid(B), b, h, r, 0)
    {
      PlaceNext(A, a, h, r, 0, h);
      PlaceNext(B, b, h, r, 0, h);
      PlaceRow(A, a, h, r);
      PlaceRow(B, b, h, r);
      offA, offB, at := FillRow(A, a, B, b, h, S, r, fromA, offA, fromB, offB, at, w);
      offA := offA + (A.width - h);
      offB := offB + (B.width - h);
    }
    PartsHold(w, Grid(A), a, Grid(B), b, h);
  }

  lemma SquareContents(S: Tables, h: nat)
    requires Squares(S, h)
    ensures SquareSums(Contents(S, h), h)
  {
    hide Grid;
  }

  /** Full tables are what Winograd's identities need. */
  lemma PartsHold(w: Sums, x: Matrix, a: Corner, y: Matrix, b: Corner, h: nat)
    requires SquareSums(w, h)
    ensures SumsOf(x, a, y, b, h, Parts(w, x, a, y, b, h, h, 0))
  {
    hide Part, SumCell, Tabled, SumsOf;
    PartTabled(w.s1, 1, x, a, h);
    PartTabled(w.s2, 2, x, a, h);
    PartTabled(w.s3, 3, x, a, h);
    PartTabled(w.s4, 4, x, a, h);
    PartTabled(w.s5, 5, y, b, h);
    PartTabled(w.s6, 6, y, b, h);
    PartTabled(w.s7, 7, y, b, h);
    PartTabled(w.s8, 8, y, b, h);
    TablesHold(x, a, y, b, h, Parts(w, x, a, y, b, h, h, 0));
  }

  /** Tables of all eight sums are what Winograd's identities need. */
  lemma TablesHold(x: Matrix, a: Corner, y: Matrix, b: Corner, h: nat, s: Sums)
    requires Tabled(s.s1, 1, x, a, h) && Tabled(s.s2, 2, x, a, h) && Tabled(s.s3, 3, x, a, h) && Tabled(s.s4, 4, x, a, h)
    requires Tabled(s.s5, 5, y, b, h) && Tabled(s.s6, 6, y, b, h) && Tabled(s.s7, 7, y, b, h) && Tabled(s.s8, 8, y, b, h)
    ensures SumsOf(x, a, y, b, h, s)
  {
    hide At;
    forall i: nat, j: nat | i < h && j < h ensures SumsAt(x, a, y, b, h, s, i, j) {
    }
  }
}
