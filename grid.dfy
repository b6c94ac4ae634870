/** The cells drawScene visits: every (i, j, k) with each index running from
    `-n/2` to `n/2` in C++ integer division, i outermost and k innermost. */
module Grid {
  import opened CArith
  import opened Defaults

  datatype Cell = Cell(i: int, j: int, k: int)

  /** The loops' lower bound, `-mNumCubes/2`: C++ parses it as `(-n)/2`. */
  function Lower(n: int): int { CDiv2(-n) }
  /** The loops' inclusive upper bound, `mNumCubes/2`. */
  function Upper(n: int): int { CDiv2(n) }

  /** The number of integers in [lo, hi). */
  function Span(lo: int, hi: int): nat { if hi >= lo then hi - lo else 0 }

  /** Cells (i, j, lo), ..., (i, j, k - 1): a prefix of the innermost loop. */
  function RowCells(i: int, j: int, lo: int, k: int): seq<Cell>
    decreases k - lo
  {
    if k <= lo then [] else RowCells(i, j, lo, k - 1) + [Cell(i, j, k - 1)]
  }

  /** The full rows j' = lo, ..., j - 1 of plane i. */
  function PlaneCells(i: int, lo: int, hi: int, j: int): seq<Cell>
    decreases j - lo
  {
    if j <= lo then [] else PlaneCells(i, lo, hi, j - 1) + RowCells(i, j - 1, lo, hi + 1)
  }

  /** The full planes i' = lo, ..., i - 1. */
  function BlockCells(lo: int, hi: int, i: int): seq<Cell>
    decreases i - lo
  {
    if i <= lo then [] else BlockCells(lo, hi, i - 1) + PlaneCells(i - 1, lo, hi, hi + 1)
  }

  /** Every cell drawScene visits for a cube count `n`, in visiting order. */
  function Cells(n: int): seq<Cell> {
    BlockCells(Lower(n), Upper(n), Upper(n) + 1)
  }

  /** Where the cube for cell `c` is drawn: `(i * size, j * size, k * size)`. */
  function Position(c: Cell, size: real): Vec3 {
    Vec3(c.i as real * size, c.j as real * size, c.k as real * size)
  }

  /** The accumulated `result &= ...` after the draw calls for `cells`, where
      the t-th call draws cell `cells[t]`. */
  predicate AllDrawn(cells: seq<Cell>, draw: (nat, Vec3) -> bool, size: real)
    decreases |cells|
  {
    if cells == [] then true
    else AllDrawn(cells[..|cells| - 1], draw, size) && draw(|cells| - 1, Position(cells[|cells| - 1], size))
  }

  /** Lexicographic order on (i, j, k). */
  predicate LexLess(a: Cell, b: Cell) {
    a.i < b.i || (a.i == b.i && (a.j < b.j || (a.j == b.j && a.k < b.k)))
  }

  predicate StrictlyIncreasing(s: seq<Cell>) {
    forall t, u :: 0 <= t < u < |s| ==> LexLess(s[t], s[u])
  }

  lemma AppendAssoc(a: seq<Cell>, b: seq<Cell>, c: seq<Cell>)
    ensures (a + b) + c == a + (b + c)
  {
  }

  lemma SortedConcat(a: seq<Cell>, b: seq<Cell>)
    requires StrictlyIncreasing(a) && StrictlyIncreasing(b)
    requires forall x, y :: x in a && y in b ==> LexLess(x, y)
    ensures StrictlyIncreasing(a + b)
  {
    var s := a + b;
    forall t, u | 0 <= t < u < |s| ensures LexLess(s[t], s[u]) {
      if u < |a| {
        assert s[t] == a[t] && s[u] == a[u];
      } else if t >= |a| {
        assert s[t] == b[t - |a|] && s[u] == b[u - |a|];
      } else {
        assert s[t] == a[t] && s[u] == b[u - |a|];
      }
    }
  }

  lemma {:induction false} RowLength(i: int, j: int, lo: int, k: int)
    ensures |RowCells(i, j, lo, k)| == Span(lo, k)
    decreases k - lo
  {
    if k > lo { RowLength(i, j, lo, k - 1); }
  }

  lemma {:induction false} RowMembers(i: int, j: int, lo: int, k: int)
    ensures forall c :: c in RowCells(i, j, lo, k) <==> c.i == i && c.j == j && lo <= c.k < k
    decreases k - lo
  {
    if k > lo { RowMembers(i, j, lo, k - 1); }
  }

  lemma {:induction false} RowSorted(i: int, j: int, lo: int, k: int)
    ensures StrictlyIncreasing(RowCells(i, j, lo, k))
    decreases k - lo
  {
    if k > lo {
      RowSorted(i, j, lo, k - 1);
      RowMembers(i, j, lo, k - 1);
      SortedConcat(RowCells(i, j, lo, k - 1), [Cell(i, j, k - 1)]);
    }
  }

  lemma {:induction false} PlaneLength(i: int, lo: int, hi: int, j: int)
    ensures |PlaneCells(i, lo, hi, j)| == Span(lo, j) * Span(lo, hi + 1)
    decreases j - lo
  {
    if j > lo {
      PlaneLength(i, lo, hi, j - 1);
      RowLength(i, j - 1, lo, hi + 1);
      var m := Span(lo, hi + 1);
      assert Span(lo, j) * m == Span(lo, j - 1) * m + m;
    }
  }

  lemma {:induction false} PlaneMembers(i: int, lo: int, hi: int, j: int)
    ensures forall c :: c in PlaneCells(i, lo, hi, j) <==>
      c.i == i && lo <= c.j < j && lo <= c.k <= hi
    decreases j - lo
  {
    if j > lo {
      PlaneMembers(i, lo, hi, j - 1);
      RowMembers(i, j - 1, lo, hi + 1);
    }
  }

  lemma {:induction false} PlaneSorted(i: int, lo: int, hi: int, j: int)
    ensures StrictlyIncreasing(PlaneCells(i, lo, hi, j))
    decreases j - lo
  {
    if j > lo {
      PlaneSorted(i, lo, hi, j - 1);
      PlaneMembers(i, lo, hi, j - 1);
      RowSorted(i, j - 1, lo, hi + 1);
      RowMembers(i, j - 1, lo, hi + 1);
      SortedConcat(PlaneCells(i, lo, hi, j - 1), RowCells(i, j - 1, lo, hi + 1));
    }
  }

  lemma {:induction false} BlockLength(lo: int, hi: int, i: int)
    ensures |BlockCells(lo, hi, i)| == Span(lo, i) * (Span(lo, hi + 1) * Span(lo, hi + 1))
    decreases i - lo
  {
    if i > lo {
      BlockLength(lo, hi, i - 1);
      PlaneLength(i - 1, lo, hi, hi + 1);
      var m := Span(lo, hi + 1) * Span(lo, hi + 1);
      assert Span(lo, i) * m == Span(lo, i - 1) * m + m;
    }
  }

  lemma {:induction false} BlockMembers(lo: int, hi: int, i: int)
    ensures forall c :: c in BlockCells(lo, hi, i) <==>
      lo <= c.i < i && lo <= c.j <= hi && lo <= c.k <= hi
    decreases i - lo
  {
    if i > lo {
      BlockMembers(lo, hi, i - 1);
      PlaneMembers(i - 1, lo, hi, hi + 1);
    }
  }

  lemma {:induction false} BlockSorted(lo: int, hi: int, i: int)
    ensures StrictlyIncreasing(BlockCells(lo, hi, i))
    decreases i - lo
  {
    if i > lo {
      BlockSorted(lo, hi, i - 1);
      BlockMembers(lo, hi, i - 1);
      PlaneSorted(i - 1, lo, hi, hi + 1);
      PlaneMembers(i - 1, lo, hi, hi + 1);
      SortedConcat(BlockCells(lo, hi, i - 1), PlaneCells(i - 1, lo, hi, hi + 1));
    }
  }

  /** The number of cubes drawn: (2 * (n/2) + 1)^3 for n >= 0, so 1331 for
      n = 10 and 1 for n = 1; one cube for n = -1 and none below. */
  lemma CellCount(n: int)
    ensures n >= 0 ==> |Cells(n)| == (2 * (n / 2) + 1) * (2 * (n / 2) + 1) * (2 * (n / 2) + 1)
    ensures n == -1 ==> |Cells(n)| == 1
    ensures n < -1 ==> |Cells(n)| == 0
  {
    var lo, hi := Lower(n), Upper(n);
    var m := Span(lo, hi + 1);
    assert |Cells(n)| == m * (m * m) by {
      BlockLength(lo, hi, hi + 1);
    }
    if n >= 0 {
      var h := n / 2;
      assert lo == -h && hi == h;
      assert m == 2 * h + 1;
      Cube(m, 2 * h + 1);
    } else if n == -1 {
      assert lo == 0 && hi == 0;
      assert m == 1;
    } else {
      assert hi + 1 <= 0 < lo;
      assert m == 0;
    }
  }

  lemma Cube(m: int, x: int)
    requires m == x
    ensures m * (m * m) == x * x * x
  {
  }

  /** Exactly the cells of the cube [Lower(n), Upper(n)]^3 are visited, and
      for n >= 0 that cube is [-(n/2), n/2]^3. */
  lemma CellsAreTheCube(n: int)
    ensures forall c :: c in Cells(n) <==>
      Lower(n) <= c.i <= Upper(n) && Lower(n) <= c.j <= Upper(n) && Lower(n) <= c.k <= Upper(n)
    ensures Lower(n) == -Upper(n)
    ensures n >= 0 ==> Upper(n) == n / 2
  {
    BlockMembers(Lower(n), Upper(n), Upper(n) + 1);
    CDiv2Odd(n);
  }

  /** Cells are visited in strictly increasing lexicographic (i, j, k) order,
      so no cell is visited twice. */
  lemma CellsLexOrder(n: int)
    ensures StrictlyIncreasing(Cells(n))
  {
    BlockSorted(Lower(n), Upper(n), Upper(n) + 1);
  }

  /** With the cube size 1/n that setNumCubes sets, every cube's centre lies
      in [-1/2, 1/2]^3 around the origin. */
  lemma CellsWithinUnitCube(n: int, c: Cell)
    requires n > 0
    requires c in Cells(n)
    ensures var p := Position(c, 1.0 / n as real);
      -0.5 <= p.x <= 0.5 && -0.5 <= p.y <= 0.5 && -0.5 <= p.z <= 0.5
  {
    CellBounds(n, c);
    PositionWithinHalf(n, c);
  }

  lemma PositionWithinHalf(n: int, c: Cell)
    requires n > 0
    requires -(n / 2) <= c.i <= n / 2 && -(n / 2) <= c.j <= n / 2 && -(n / 2) <= c.k <= n / 2
    ensures var p := Position(c, 1.0 / n as real);
      -0.5 <= p.x <= 0.5 && -0.5 <= p.y <= 0.5 && -0.5 <= p.z <= 0.5
  {
    var s := 1.0 / n as real;
    CoordWithinHalf(n, n / 2, s, c.i);
    CoordWithinHalf(n, n / 2, s, c.j);
    CoordWithinHalf(n, n / 2, s, c.k);
  }

  lemma CellBounds(n: int, c: Cell)
    requires n >= 0 && c in Cells(n)
    ensures -(n / 2) <= c.i <= n / 2 && -(n / 2) <= c.j <= n / 2 && -(n / 2) <= c.k <= n / 2
  {
    CellsAreTheCube(n);
  }

  lemma CoordWithinHalf(n: int, h: int, s: real, x: int)
    requires n > 0 && h == n / 2 && s == 1.0 / n as real
    requires -h <= x <= h
    ensures -0.5 <= x as real * s <= 0.5
  {
    assert s > 0.0;
    assert n as real * s == 1.0;
    ScaleMonotone((2 * x) as real, n as real, s);
    ScaleMonotone((-n) as real, (2 * x) as real, s);
    assert (2 * x) as real * s == 2.0 * (x as real * s);
  }

  lemma ScaleMonotone(a: real, b: real, s: real)
    requires a <= b && s >= 0.0
    ensures a * s <= b * s
  {
    assert b * s - a * s == (b - a) * s;
  }

  /** Drawing one more cell: the accumulated result is the previous one and the
      last call's. */
  lemma AllDrawnAppend(cells: seq<Cell>, c: Cell, draw: (nat, Vec3) -> bool, size: real)
    ensures AllDrawn(cells + [c], draw, size) <==>
      AllDrawn(cells, draw, size) && draw(|cells|, Position(c, size))
  {
    assert (cells + [c])[..|cells|] == cells;
  }

  /** The accumulated result is true exactly when every draw call succeeded. */
  lemma {:induction false} AllDrawnMeaning(cells: seq<Cell>, draw: (nat, Vec3) -> bool, size: real)
    ensures AllDrawn(cells, draw, size) <==>
      forall t: nat :: t < |cells| ==> draw(t, Position(cells[t], size))
    decreases |cells|
  {
    if cells != [] {
      var init := cells[..|cells| - 1];
      AllDrawnMeaning(init, draw, size);
      assert forall t: nat :: t < |init| ==> init[t] == cells[t];
    }
  }

  /** One step of drawScene's innermost loop: drawing cell (i, j, k) extends
      the row by that cell, and the accumulated result by that call's. */
  lemma RowStep(visited: seq<Cell>, plane: seq<Cell>, i: int, j: int, lo: int, k: int,
                draw: (nat, Vec3) -> bool, size: real)
    requires lo <= k && visited == plane + RowCells(i, j, lo, k)
    ensures visited + [Cell(i, j, k)] == plane + RowCells(i, j, lo, k + 1)
    ensures AllDrawn(visited + [Cell(i, j, k)], draw, size) <==>
      AllDrawn(visited, draw, size) && draw(|visited|, Position(Cell(i, j, k), size))
  {
    AllDrawnAppend(visited, Cell(i, j, k), draw, size);
    AppendAssoc(plane, RowCells(i, j, lo, k), [Cell(i, j, k)]);
  }

  /** A completed plane extends the block by one plane. */
  lemma BlockStep(visited: seq<Cell>, block: seq<Cell>, lo: int, hi: int, i: int)
    requires lo <= i && visited == block + PlaneCells(i, lo, hi, hi + 1)
    requires block == BlockCells(lo, hi, i)
    ensures visited == BlockCells(lo, hi, i + 1)
  {
  }

  /** A completed row extends the plane by one row. */
  lemma PlaneStep(visited: seq<Cell>, block: seq<Cell>, i: int, lo: int, hi: int, j: int)
    requires lo <= j && visited == (block + PlaneCells(i, lo, hi, j)) + RowCells(i, j, lo, hi + 1)
    ensures visited == block + PlaneCells(i, lo, hi, j + 1)
  {
    AppendAssoc(block, PlaneCells(i, lo, hi, j), RowCells(i, j, lo, hi + 1));
  }
}
