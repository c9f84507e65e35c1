/** Layout of the square grid produced by `generate_grid_dataframe`:
    flat cell indices, their grid positions, the unit square each cell is
    drawn as, and the row-major flattening of the value grid. */
module GridLayout {

  /** A corner of a cell polygon; x is the column, y the row. */
  datatype Point = Point(x: int, y: int)

  /** A polygon as its four distinct corners, in order. */
  type Polygon = seq<Point>

  /** The flat index of the cell at column x, row y of a grid with n columns. */
  function FlatIndex(x: nat, y: nat, n: nat): nat
  {
    y * n + x
  }

  /** Division with remainder has exactly one solution: any split of i into
      q full rows of n plus a column r < n is i / n and i % n. */
  lemma DivModUnique(i: int, n: int, q: int, r: int)
    requires 0 < n && 0 <= r < n && i == q * n + r
    ensures i / n == q && i % n == r
  {
    var q0, r0 := i / n, i % n;
    assert i == q0 * n + r0;
    if q0 < q {
      MulDistributes(q - q0, q0, n);
      AtLeastOneRow(q - q0, n);
    } else if q < q0 {
      MulDistributes(q0 - q, q, n);
      AtLeastOneRow(q0 - q, n);
    }
  }

  lemma MulDistributes(a: int, b: int, n: int)
    ensures (a + b) * n == a * n + b * n
  {
  }

  lemma AtLeastOneRow(a: int, n: int)
    requires 1 <= a && 0 < n
    ensures a * n >= n
  {
    MulDistributes(a - 1, 1, n);
    NonNegativeProduct(a - 1, n);
  }

  lemma NonNegativeProduct(a: int, n: int)
    requires 0 <= a && 0 <= n
    ensures 0 <= a * n
  {
  }

  /** Multiplying by a non-negative n keeps the order of non-negative numbers. */
  lemma MulMonotone(a: int, b: int, n: int)
    requires 0 <= a && 0 <= n
    ensures a <= b ==> a * n <= b * n
  {
    MulDistributes(b - a, a, n);
    if a <= b {
      NonNegativeProduct(b - a, n);
    }
  }

  /** A flat index below n * n lies in one of the n rows. */
  lemma RowBelowSide(i: nat, n: nat)
    requires i < n * n
    ensures 0 < n && i / n < n
  {
    assert n != 0;
    var q := i / n;
    assert q * n + i % n == i;
    MulMonotone(n, q, n);
  }

  /** Position of flat cell i in a grid of side n: x = i % n, y = i // n.
      It lies on the grid, and the flat index of that position is i again. */
  function Position(i: nat, n: nat): (p: Point)
    requires i < n * n
    ensures 0 <= p.x < n && 0 <= p.y < n
    ensures FlatIndex(p.x, p.y, n) == i
  {
    RowBelowSide(i, n);
    Point(i % n, i / n)
  }

  /** The other half of the bijection: every position on the grid has a flat
      index below n * n, and that index maps back to the same position. */
  lemma PositionOfFlatIndex(x: nat, y: nat, n: nat)
    requires x < n && y < n
    ensures FlatIndex(x, y, n) < n * n
    ensures Position(FlatIndex(x, y, n), n) == Point(x, y)
  {
    MulDistributes(y, 1, n);
    MulMonotone(y + 1, n, n);
    DivModUnique(y * n + x, n, y, x);
  }

  /** Distinct flat indices are placed at distinct positions. */
  lemma PositionInjective(i: nat, j: nat, n: nat)
    requires i < n * n && j < n * n && i != j
    ensures Position(i, n) != Position(j, n)
  {
  }

  /** The unit square with lower-left corner (x, y), corners listed as
      (x,y), (x+1,y), (x+1,y+1), (x,y+1). */
  function UnitSquare(x: int, y: int): (sq: Polygon)
    ensures |sq| == 4
  {
    [Point(x, y), Point(x + 1, y), Point(x + 1, y + 1), Point(x, y + 1)]
  }

  /** Twice the signed area of a polygon by the shoelace formula
      (positive for counter-clockwise corners). */
  function TwiceSignedArea(poly: Polygon): int
  {
    if |poly| < 3 then 0 else ShoelaceFrom(poly, 0)
  }

  function ShoelaceFrom(poly: Polygon, k: nat): int
    requires 0 < |poly| && k <= |poly|
    decreases |poly| - k
  {
    if k == |poly| then 0
    else
      var p, q := poly[k], poly[(k + 1) % |poly|];
      p.x * q.y - q.x * p.y + ShoelaceFrom(poly, k + 1)
  }

  /** Every corner of the polygon lies in the closed region [0,n] x [0,n]. */
  predicate WithinRegion(poly: Polygon, n: nat)
  {
    forall k :: 0 <= k < |poly| ==> 0 <= poly[k].x <= n && 0 <= poly[k].y <= n
  }

  /** The geometry of flat cell i (the nested `calculate_square_coordinates`):
      a counter-clockwise unit square of area 1 inside [0,n] x [0,n] whose
      first corner gives back the cell's flat index. */
  function CellSquare(i: nat, n: nat): (sq: Polygon)
    requires i < n * n
    ensures |sq| == 4 && TwiceSignedArea(sq) == 2
    ensures WithinRegion(sq, n)
    ensures sq[0].x >= 0 && sq[0].y >= 0 && FlatIndex(sq[0].x, sq[0].y, n) == i
  {
    var p := Position(i, n);
    UnitSquare(p.x, p.y)
  }

  /** Distinct cells have distinct squares. */
  lemma CellSquareInjective(i: nat, j: nat, n: nat)
    requires i < n * n && j < n * n
    requires CellSquare(i, n) == CellSquare(j, n)
    ensures i == j
  {
    var si, sj := CellSquare(i, n), CellSquare(j, n);
    assert si[0] == sj[0];
  }

  /** The point (px, py) lies in the half-open square [x, x+1) x [y, y+1)
      spanned by the square's first and third corners. */
  predicate Covers(sq: Polygon, px: real, py: real)
    requires |sq| == 4
  {
    sq[0].x as real <= px < sq[2].x as real && sq[0].y as real <= py < sq[2].y as real
  }

  /** Every point of [0,n) x [0,n) is covered by a cell square: the one at
      column floor(px), row floor(py). */
  function CellAt(px: real, py: real, n: nat): (i: nat)
    requires 0.0 <= px < n as real && 0.0 <= py < n as real
    ensures i < n * n && Covers(CellSquare(i, n), px, py)
  {
    var x, y := px.Floor, py.Floor;
    PositionOfFlatIndex(x, y, n);
    FlatIndex(x, y, n)
  }

  /** No point is covered by two different cell squares, so the squares of
      the n * n cells tile [0,n) x [0,n) without overlap. */
  lemma SquaresDoNotOverlap(i: nat, j: nat, n: nat, px: real, py: real)
    requires i < n * n && j < n * n
    requires Covers(CellSquare(i, n), px, py) && Covers(CellSquare(j, n), px, py)
    ensures i == j
  {
    var si, sj := CellSquare(i, n), CellSquare(j, n);
    assert si[0].x == px.Floor == sj[0].x;
    assert si[0].y == py.Floor == sj[0].y;
  }

  /** All rows of g have length w. */
  predicate Rectangular<T>(g: seq<seq<T>>, w: nat)
  {
    forall r :: 0 <= r < |g| ==> |g[r]| == w
  }

  /** An n x n grid: n rows, each of length n. */
  predicate IsGrid<T>(g: seq<seq<T>>, n: nat)
  {
    |g| == n && Rectangular(g, n)
  }

  /** Row-major flattening (NumPy's `ravel` on a C-ordered array). */
  function Ravel<T>(g: seq<seq<T>>): seq<T>
  {
    if g == [] then [] else g[0] + Ravel(g[1..])
  }

  /** Flattening a grid of rows of width w keeps every element, and the element
      of row r, column c lands at flat position r * w + c. */
  lemma {:induction false} RavelAt<T>(g: seq<seq<T>>, w: nat, r: nat, c: nat)
    requires Rectangular(g, w) && r < |g| && c < w
    ensures |Ravel(g)| == |g| * w
    ensures r * w + c < |g| * w && Ravel(g)[r * w + c] == g[r][c]
  {
    RavelLength(g, w);
    if r == 0 {
    } else {
      assert Rectangular(g[1..], w);
      RavelAt(g[1..], w, r - 1, c);
      assert r * w + c == w + ((r - 1) * w + c);
      assert g[1..][r - 1] == g[r];
    }
  }

  lemma {:induction false} RavelLength<T>(g: seq<seq<T>>, w: nat)
    requires Rectangular(g, w)
    ensures |Ravel(g)| == |g| * w
  {
    if g != [] {
      assert Rectangular(g[1..], w);
      RavelLength(g[1..], w);
    }
  }

  /** The value stored at flat index i of the flattened n x n grid is the one
      at row i // n, column i % n. */
  lemma RavelIndex<T>(g: seq<seq<T>>, n: nat, i: nat)
    requires IsGrid(g, n) && i < n * n
    ensures |Ravel(g)| == n * n
    ensures Ravel(g)[i] == g[Position(i, n).y][Position(i, n).x]
  {
    var p := Position(i, n);
    RavelAt(g, n, p.y, p.x);
  }

  /** Grid row r, column c is stored at flat index r * n + c, and that cell's
      square has its lower-left corner at x = c, y = r. */
  lemma ValueSitsOnItsSquare<T>(g: seq<seq<T>>, n: nat, r: nat, c: nat)
    requires IsGrid(g, n) && r < n && c < n
    ensures FlatIndex(c, r, n) < n * n && |Ravel(g)| == n * n
    ensures Ravel(g)[FlatIndex(c, r, n)] == g[r][c]
    ensures CellSquare(FlatIndex(c, r, n), n)[0] == Point(c, r)
  {
    PositionOfFlatIndex(c, r, n);
    RavelAt(g, n, r, c);
  }
}
