/**
 Matrices in memory: rows of equal width, one after the other, as the macro ELEM of
 benchmarks/strassen/strassen-lace.c and the leading dimension of
 benchmarks/matmul/matmul-lace.c address them. Numbers are exact.
 */
module Planes {
  import opened MatrixSpec

  /** How many cells a matrix takes. */
  function Size(rows: nat, width: nat): nat {
    rows * width
  }

  class Plane {
    const cells: array<real>
    const rows: nat
    const width: nat

    ghost predicate Valid() {
      cells.Length == Size(rows, width)
    }

    constructor (rows: nat, width: nat)
      ensures Valid() && this.rows == rows && this.width == width && fresh(cells)
    {
      this.rows, this.width := rows, width;
      cells := new real[Size(rows, width)];
    }
  }

  /** Where the element in row r and column c is. */
  function Addr(p: Plane, r: nat, c: nat): nat {
    r * p.width + c
  }

  lemma AddrIn(p: Plane, r: nat, c: nat)
    requires p.Valid() && r < p.rows && c < p.width
    ensures Addr(p, r, c) < p.cells.Length
  {
    assert (r + 1) * p.width <= p.rows * p.width;
  }

  lemma AddrApart(p: Plane, r: nat, c: nat, r': nat, c': nat)
    requires c < p.width && c' < p.width
    ensures Addr(p, r, c) == Addr(p, r', c') <==> r == r' && c == c'
  {
    if r < r' {
      assert (r + 1) * p.width <= r' * p.width;
    } else if r' < r {
      assert (r' + 1) * p.width <= r * p.width;
    }
  }

  lemma NextRow(p: Plane, r: nat, c: nat)
    ensures Addr(p, r + 1, c) == Addr(p, r, c) + p.width
  {
  }

  function Get(p: Plane, r: nat, c: nat): real
    requires p.Valid() && r < p.rows && c < p.width
    reads p.cells
  {
    AddrIn(p, r, c);
    p.cells[Addr(p, r, c)]
  }

  function Grid(p: Plane): (m: Matrix)
    requires p.Valid()
    reads p.cells
    ensures |m| == p.rows && forall r :: 0 <= r < |m| ==> |m[r]| == p.width
  {
    seq(p.rows, r requires 0 <= r < p.rows reads p.cells =>
      seq(p.width, c requires 0 <= c < p.width reads p.cells => Get(p, r, c)))
  }

  lemma GridAt(p: Plane, r: nat, c: nat)
    requires p.Valid() && r < p.rows && c < p.width
    ensures Has(Grid(p), r, c) && At(Grid(p), r, c) == Get(p, r, c)
  {
    hide Get, Addr;
  }

  /** What a pointer to row r and column c points to. */
  lemma Points(p: Plane, r: nat, c: nat, at: nat)
    requires p.Valid() && r < p.rows && c < p.width && at == Addr(p, r, c)
    ensures at < p.cells.Length && p.cells[at] == At(Grid(p), r, c) && Has(Grid(p), r, c)
  {
    AddrIn(p, r, c);
    GridAt(p, r, c);
  }

  function SetCell(m: Matrix, r: nat, c: nat, v: real): Matrix
    requires Has(m, r, c)
  {
    m[r := m[r][c := v]]
  }

  /** The block lies inside the matrix. */
  ghost predicate Fits(p: Plane, k: Corner, m: nat, n: nat) {
    p.Valid() && k.r + m <= p.rows && k.c + n <= p.width
  }

  /** A store through a pointer to row r and column c. */
  method Store(p: Plane, ghost r: nat, ghost c: nat, at: nat, v: real)
    requires p.Valid() && r < p.rows && c < p.width && at == Addr(p, r, c)
    modifies p.cells
    ensures Grid(p) == SetCell(old(Grid(p)), r, c, v)
  {
    AddrIn(p, r, c);
    ghost var g := Grid(p);
    p.cells[at] := v;
    forall i | 0 <= i < p.rows ensures Grid(p)[i] == SetCell(g, r, c, v)[i] {
      forall j | 0 <= j < p.width ensures Grid(p)[i][j] == SetCell(g, r, c, v)[i][j] {
        AddrIn(p, i, j);
        AddrApart(p, i, j, r, c);
        hide Addr;
      }
    }
  }
}
