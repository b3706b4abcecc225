/**
  The deformation math shared by every version of the demo: the evenly spaced
  control-point lattice, the lookup of the cell that owns a parametric point,
  bilinear evaluation inside that cell, the "expand" border shift, the user-point
  midpoints, and the tagging of shape samples with their cell.
*/
module Deformation {
  import opened Geometry

  /** Indices of the upper-left corner of a lattice cell: `[i, j]` = `[row, column]`. */
  datatype Cell = Cell(row: int, col: int)

  /**
    `getCellIndices`: the row is `floor(y·(rows−1))` and the column
    `floor(x·(cols−1))`, each clamped from above so that y = 1 or x = 1 still
    names the last cell.  Nothing clamps from below.
  */
  function CellIndices(x: real, y: real, rows: int, cols: int): (c: Cell)
    ensures c.row <= rows - 2 && c.col <= cols - 2
  {
    Cell(Min((y * (rows - 1) as real).Floor, rows - 2), Min((x * (cols - 1) as real).Floor, cols - 2))
  }

  /**
    For a point of the unit square the cell is a real one (no index is negative)
    and it contains the point: its row brackets y·(rows−1), its column x·(cols−1).
  */
  lemma CellContains(x: real, y: real, rows: int, cols: int)
    requires rows >= 2 && cols >= 2 && 0.0 <= x <= 1.0 && 0.0 <= y <= 1.0
    ensures var c := CellIndices(x, y, rows, cols);
      0 <= c.row && c.row as real <= y * (rows - 1) as real <= c.row as real + 1.0 &&
      0 <= c.col && c.col as real <= x * (cols - 1) as real <= c.col as real + 1.0
  {
    ClampedFloor(y, rows - 1);
    ClampedFloor(x, cols - 1);
  }

  /** The clamped floor of t·n lies in [0, n−1] and brackets t·n, for t in [0, 1]. */
  lemma ClampedFloor(t: real, n: int)
    requires n >= 1 && 0.0 <= t <= 1.0
    ensures var f := Min((t * n as real).Floor, n - 1);
      0 <= f <= n - 1 && f as real <= t * n as real <= f as real + 1.0
  {
    var d := n as real;
    MulNonneg(t, d);
    MulNonneg(1.0 - t, d);
    assert (1.0 - t) * d == d - t * d;
  }

  /** The four corners of cell c exist in g. */
  predicate CellFits(g: Grid, c: Cell)
  {
    0 <= c.row && c.row + 1 < |g| && 0 <= c.col && c.col + 1 < |g[c.row]| && c.col + 1 < |g[c.row + 1]|
  }

  /**
    One coordinate of the bilinear blend: the corner values a0 (upper-left),
    a1 (upper-right), a2 (lower-left) and a3 (lower-right) weighted by
    (1−u)(1−v), u(1−v), (1−u)v and uv.
  */
  function Mix(a0: real, a1: real, a2: real, a3: real, u: real, v: real): real
  {
    (1.0 - u) * (1.0 - v) * a0 + u * (1.0 - v) * a1 + (1.0 - u) * v * a2 + u * v * a3
  }

  /** The weights sum to one, so the blend commutes with every map a ↦ k·a + c. */
  lemma MixAffine(a0: real, a1: real, a2: real, a3: real, u: real, v: real, k: real, c: real)
    ensures Mix(k * a0 + c, k * a1 + c, k * a2 + c, k * a3 + c, u, v) == k * Mix(a0, a1, a2, a3, u, v) + c
  {
    var w0, w1, w2, w3 := (1.0 - u) * (1.0 - v), u * (1.0 - v), (1.0 - u) * v, u * v;
    assert w0 + w1 + w2 + w3 == 1.0;
    assert w0 * (k * a0 + c) + w1 * (k * a1 + c) + w2 * (k * a2 + c) + w3 * (k * a3 + c)
        == k * (w0 * a0 + w1 * a1 + w2 * a2 + w3 * a3) + (w0 + w1 + w2 + w3) * c;
  }

  /** Values that vary along one axis only blend linearly along that axis. */
  lemma MixSeparable(a: real, b: real, u: real, v: real)
    ensures Mix(a, b, a, b, u, v) == (1.0 - u) * a + u * b
    ensures Mix(a, a, b, b, u, v) == (1.0 - v) * a + v * b
  {
    assert Mix(a, b, a, b, u, v) == ((1.0 - v) + v) * ((1.0 - u) * a + u * b);
    assert Mix(a, a, b, b, u, v) == ((1.0 - u) + u) * ((1.0 - v) * a + v * b);
  }

  /**
    The bilinear blend of the corners upper-left p0, upper-right p1, lower-left p2
    and lower-right p3 at fractional offsets (u, v) inside the cell.
  */
  function Blend4(p0: Point, p1: Point, p2: Point, p3: Point, u: real, v: real): Point
  {
    Point(Mix(p0.x, p1.x, p2.x, p3.x, u, v), Mix(p0.y, p1.y, p2.y, p3.y, u, v))
  }

  /** At offsets of exactly 0 or 1 the blend is the corresponding corner. */
  lemma Blend4Corners(p0: Point, p1: Point, p2: Point, p3: Point, u: real, v: real)
    ensures u == 0.0 && v == 0.0 ==> Blend4(p0, p1, p2, p3, u, v) == p0
    ensures u == 1.0 && v == 0.0 ==> Blend4(p0, p1, p2, p3, u, v) == p1
    ensures u == 0.0 && v == 1.0 ==> Blend4(p0, p1, p2, p3, u, v) == p2
    ensures u == 1.0 && v == 1.0 ==> Blend4(p0, p1, p2, p3, u, v) == p3
  {
  }

  /** The four weights sum to one: blending four equal corners gives that corner back. */
  lemma Blend4Constant(q: Point, u: real, v: real)
    ensures Blend4(q, q, q, q, u, v) == q
  {
    MixAffine(0.0, 0.0, 0.0, 0.0, u, v, 0.0, q.x);
    MixAffine(0.0, 0.0, 0.0, 0.0, u, v, 0.0, q.y);
  }

  /** Translating all four corners translates the blend. */
  lemma Blend4Translate(p0: Point, p1: Point, p2: Point, p3: Point, u: real, v: real, dx: real, dy: real)
    ensures Blend4(p0.Translate(dx, dy), p1.Translate(dx, dy), p2.Translate(dx, dy), p3.Translate(dx, dy), u, v)
         == Blend4(p0, p1, p2, p3, u, v).Translate(dx, dy)
  {
    MixAffine(p0.x, p1.x, p2.x, p3.x, u, v, 1.0, dx);
    MixAffine(p0.y, p1.y, p2.y, p3.y, u, v, 1.0, dy);
  }

  /**
    When the corners' x depends only on the column and their y only on the row
    (an undeformed cell), the blend separates into two linear blends.
  */
  lemma Blend4Separable(a: real, b: real, c: real, d: real, u: real, v: real)
    ensures Blend4(Point(a, c), Point(b, c), Point(a, d), Point(b, d), u, v)
         == Point((1.0 - u) * a + u * b, (1.0 - v) * c + v * d)
  {
    MixSeparable(a, b, u, v);
    MixSeparable(c, d, u, v);
  }

  /** The blend is linear in the corner values: blending interpolated corners interpolates the blends. */
  lemma MixLerp(b0: real, b1: real, b2: real, b3: real, c0: real, c1: real, c2: real, c3: real,
                l0: real, l1: real, l2: real, l3: real, u: real, v: real, e: real)
    requires l0 == LerpCoord(b0, c0, e) && l1 == LerpCoord(b1, c1, e)
    requires l2 == LerpCoord(b2, c2, e) && l3 == LerpCoord(b3, c3, e)
    ensures Mix(l0, l1, l2, l3, u, v) == LerpCoord(Mix(b0, b1, b2, b3, u, v), Mix(c0, c1, c2, c3, u, v), e)
  {
    var top, bottom := LerpCoord(l0, l1, u), LerpCoord(l2, l3, u);
    var bTop, bBottom := LerpCoord(b0, b1, u), LerpCoord(b2, b3, u);
    var cTop, cBottom := LerpCoord(c0, c1, u), LerpCoord(c2, c3, u);
    MixNested(l0, l1, l2, l3, u, v);
    MixNested(b0, b1, b2, b3, u, v);
    MixNested(c0, c1, c2, c3, u, v);
    LerpCommute(b0, c0, b1, c1, e, u, l0, l1);
    LerpCommute(b2, c2, b3, c3, e, u, l2, l3);
    LerpCommute(bTop, cTop, bBottom, cBottom, e, v, top, bottom);
  }

  /** The bilinear blend is an interpolation along u followed by one along v. */
  lemma MixNested(a0: real, a1: real, a2: real, a3: real, u: real, v: real)
    ensures Mix(a0, a1, a2, a3, u, v) == LerpCoord(LerpCoord(a0, a1, u), LerpCoord(a2, a3, u), v)
  {
  }

  /** Interpolations along two parameters commute. */
  lemma LerpCommute(b0: real, c0: real, b1: real, c1: real, e: real, u: real, l0: real, l1: real)
    requires l0 == LerpCoord(b0, c0, e) && l1 == LerpCoord(b1, c1, e)
    ensures LerpCoord(l0, l1, u) == LerpCoord(LerpCoord(b0, b1, u), LerpCoord(c0, c1, u), e)
  {
  }

  /** Blending corner-wise interpolated cells gives the interpolation of the two blends. */
  lemma Blend4Lerp(p0: Point, p1: Point, p2: Point, p3: Point, q0: Point, q1: Point, q2: Point, q3: Point,
                   l0: Point, l1: Point, l2: Point, l3: Point, u: real, v: real, e: real)
    requires l0 == Lerp(p0, q0, e) && l1 == Lerp(p1, q1, e) && l2 == Lerp(p2, q2, e) && l3 == Lerp(p3, q3, e)
    ensures Blend4(l0, l1, l2, l3, u, v) == Lerp(Blend4(p0, p1, p2, p3, u, v), Blend4(q0, q1, q2, q3, u, v), e)
  {
    MixLerp(p0.x, p1.x, p2.x, p3.x, q0.x, q1.x, q2.x, q3.x, l0.x, l1.x, l2.x, l3.x, u, v, e);
    MixLerp(p0.y, p1.y, p2.y, p3.y, q0.y, q1.y, q2.y, q3.y, l0.y, l1.y, l2.y, l3.y, u, v, e);
  }

  /** Reflecting all four corners through a centre reflects the blend. */
  lemma Blend4Reflect(p0: Point, p1: Point, p2: Point, p3: Point, u: real, v: real, m: Point)
    ensures Blend4(p0.ReflectThrough(m), p1.ReflectThrough(m), p2.ReflectThrough(m), p3.ReflectThrough(m), u, v)
         == Blend4(p0, p1, p2, p3, u, v).ReflectThrough(m)
  {
    MixAffine(p0.x, p1.x, p2.x, p3.x, u, v, -1.0, 2.0 * m.x);
    MixAffine(p0.y, p1.y, p2.y, p3.y, u, v, -1.0, 2.0 * m.y);
  }

  /**
    `bilinearInterp`: the fractional offsets are u = x·(cols−1) − j and
    v = y·(rows−1) − i, and the result blends the corners (i,j), (i,j+1),
    (i+1,j), (i+1,j+1).  `rows` and `cols` are whatever dimensions the version
    divides by; the cell is not checked against them.
  */
  function Bilinear(x: real, y: real, c: Cell, g: Grid, rows: int, cols: int): (p: Point)
    requires CellFits(g, c)
    ensures g[c.row][c.col] == g[c.row][c.col + 1] == g[c.row + 1][c.col] == g[c.row + 1][c.col + 1]
      ==> p == g[c.row][c.col]
  {
    var u := x * (cols - 1) as real - c.col as real;
    var v := y * (rows - 1) as real - c.row as real;
    Blend4Constant(g[c.row][c.col], u, v);
    Blend4(g[c.row][c.col], g[c.row][c.col + 1], g[c.row + 1][c.col], g[c.row + 1][c.col + 1], u, v)
  }

  /** Translating the whole lattice by (dx, dy) translates every evaluated point by (dx, dy). */
  lemma BilinearTranslate(x: real, y: real, c: Cell, g: Grid, rows: int, cols: int, dx: real, dy: real)
    requires CellFits(g, c)
    ensures CellFits(TranslateGrid(g, dx, dy), c)
    ensures Bilinear(x, y, c, TranslateGrid(g, dx, dy), rows, cols) == Bilinear(x, y, c, g, rows, cols).Translate(dx, dy)
  {
    var u := x * (cols - 1) as real - c.col as real;
    var v := y * (rows - 1) as real - c.row as real;
    Blend4Translate(g[c.row][c.col], g[c.row][c.col + 1], g[c.row + 1][c.col], g[c.row + 1][c.col + 1], u, v, dx, dy);
  }

  /** Exactly at a lattice node the evaluation sits on that node, the last row and column included. */
  lemma BilinearAtNode(g: Grid, rows: int, cols: int, i: int, j: int, x: real, y: real)
    requires rows >= 2 && cols >= 2 && IsRect(g, rows, cols)
    requires 0 <= i < rows && 0 <= j < cols
    requires x * (cols - 1) as real == j as real && y * (rows - 1) as real == i as real
    ensures var c := CellIndices(x, y, rows, cols);
      CellFits(g, c) && Bilinear(x, y, c, g, rows, cols) == g[i][j]
  {
    var c0, r0 := Min(j, cols - 2), Min(i, rows - 2);
    assert CellIndices(x, y, rows, cols) == Cell(r0, c0);
    BilinearAtOffsets(x, y, Cell(r0, c0), g, rows, cols, i - r0, j - c0);
  }

  /** Offsets of exactly 0 or 1 inside a cell select one of its corners. */
  lemma BilinearAtOffsets(x: real, y: real, c: Cell, g: Grid, rows: int, cols: int, di: int, dj: int)
    requires CellFits(g, c) && 0 <= di <= 1 && 0 <= dj <= 1
    requires x * (cols - 1) as real - c.col as real == dj as real
    requires y * (rows - 1) as real - c.row as real == di as real
    ensures Bilinear(x, y, c, g, rows, cols) == g[c.row + di][c.col + dj]
  {
    BlendAtNode(g, c.row, c.col, di, dj);
  }

  /** Evaluating a cell at one of its own corners gives that corner. */
  lemma BlendAtNode(g: Grid, r0: int, c0: int, di: int, dj: int)
    requires CellFits(g, Cell(r0, c0)) && 0 <= di <= 1 && 0 <= dj <= 1
    ensures Blend4(g[r0][c0], g[r0][c0 + 1], g[r0 + 1][c0], g[r0 + 1][c0 + 1], dj as real, di as real)
         == g[r0 + di][c0 + dj]
  {
    Blend4Corners(g[r0][c0], g[r0][c0 + 1], g[r0 + 1][c0], g[r0 + 1][c0 + 1], dj as real, di as real);
  }

  /** Control point (i, j) of the undeformed lattice spanning (px, py)–(px+w, py+h). */
  function EvenPoint(px: real, py: real, w: real, h: real, rows: int, cols: int, i: int, j: int): Point
    requires rows >= 2 && cols >= 2
  {
    Point(px + (j as real / (cols - 1) as real) * w, py + (i as real / (rows - 1) as real) * h)
  }

  function LatticeRow(px: real, py: real, w: real, h: real, rows: int, cols: nat, i: int): (r: seq<Point>)
    requires rows >= 2 && cols >= 2
    ensures |r| == cols
  {
    seq(cols, j requires 0 <= j < cols => EvenPoint(px, py, w, h, rows, cols, i, j))
  }

  /**
    The undeformed rows-by-cols lattice built by `setControlPoints`: every
    column shares one x and every row one y (`LatticeCorners` and
    `LatticeSpacing` add where it starts and ends and that neighbours are
    equally far apart).
  */
  function Lattice(px: real, py: real, w: real, h: real, rows: nat, cols: nat): (g: Grid)
    requires rows >= 2 && cols >= 2
    ensures IsRect(g, rows, cols)
    ensures forall i, j :: 0 <= i < rows && 0 <= j < cols ==> g[i][j].x == g[0][j].x && g[i][j].y == g[i][0].y
  {
    seq(rows, i requires 0 <= i < rows => LatticeRow(px, py, w, h, rows, cols, i))
  }

  /** The lattice spans the rectangle from (px, py) to (px + w, py + h). */
  lemma LatticeCorners(px: real, py: real, w: real, h: real, rows: nat, cols: nat)
    requires rows >= 2 && cols >= 2
    ensures var g := Lattice(px, py, w, h, rows, cols);
      g[0][0] == Point(px, py) && g[rows - 1][cols - 1] == Point(px + w, py + h)
  {
    UnitFraction(cols - 1, w);
    UnitFraction(rows - 1, h);
  }

  lemma UnitFraction(n: int, w: real)
    requires n >= 1
    ensures (0 as real / n as real) * w == 0.0 && (n as real / n as real) * w == w
  {
    assert n as real / n as real == 1.0;
  }

  /** Neighbouring control points are w/(cols−1) apart across and h/(rows−1) apart down. */
  lemma LatticeSpacing(px: real, py: real, w: real, h: real, rows: nat, cols: nat, i: int, j: int)
    requires rows >= 2 && cols >= 2 && 0 <= i < rows - 1 && 0 <= j < cols - 1
    ensures var g := Lattice(px, py, w, h, rows, cols);
      g[i][j + 1].x - g[i][j].x == w / (cols - 1) as real &&
      g[i + 1][j].y - g[i][j].y == h / (rows - 1) as real
  {
    EvenStep(j, cols - 1, w);
    EvenStep(i, rows - 1, h);
  }

  lemma EvenStep(j: int, n: int, w: real)
    requires n >= 1
    ensures ((j + 1) as real / n as real) * w - (j as real / n as real) * w == w / n as real
  {
    var d := n as real;
    assert (j + 1) as real / d == j as real / d + 1.0 / d;
    assert (j as real / d + 1.0 / d) * w == (j as real / d) * w + (1.0 / d) * w;
    assert (1.0 / d) * w == w / d;
  }

  /** The inner loop of `setControlPoints`: row i of the undeformed lattice, entry by entry. */
  method BuildRow(px: real, py: real, w: real, h: real, rows: nat, cols: nat, i: int) returns (row: seq<Point>)
    requires rows >= 2 && cols >= 2
    ensures row == LatticeRow(px, py, w, h, rows, cols, i)
  {
    row := [];
    var j := 0;
    while j < cols
      invariant 0 <= j <= cols
      invariant |row| == j
      invariant forall q :: 0 <= q < j ==> row[q] == EvenPoint(px, py, w, h, rows, cols, i, q)
    {
      row := row + [Point(px + (j as real / (cols - 1) as real) * w, py + (i as real / (rows - 1) as real) * h)];
      j := j + 1;
    }
  }

  /** The nested loops of `setControlPoints` that fill one lattice. */
  method BuildLattice(px: real, py: real, w: real, h: real, rows: nat, cols: nat) returns (g: Grid)
    requires rows >= 2 && cols >= 2
    ensures g == Lattice(px, py, w, h, rows, cols)
  {
    g := [];
    var i := 0;
    while i < rows
      invariant 0 <= i <= rows
      invariant |g| == i
      invariant forall p :: 0 <= p < i ==> g[p] == LatticeRow(px, py, w, h, rows, cols, p)
    {
      var row := BuildRow(px, py, w, h, rows, cols, i);
      g := g + [row];
      i := i + 1;
    }
  }

  /** The parametric point (x, y) of the unit square, stretched onto the lattice's rectangle. */
  function Stretch(px: real, py: real, w: real, h: real, x: real, y: real): Point
  {
    Point(px + x * w, py + y * h)
  }

  /**
    On the undeformed lattice, evaluating (x, y) in the cell `CellIndices` gives
    reproduces the parametric point stretched onto the lattice's rectangle.
  */
  lemma BilinearUndeformed(px: real, py: real, w: real, h: real, rows: nat, cols: nat, x: real, y: real)
    requires rows >= 2 && cols >= 2
    requires 0.0 <= x <= 1.0 && 0.0 <= y <= 1.0
    ensures var g, c := Lattice(px, py, w, h, rows, cols), CellIndices(x, y, rows, cols);
      CellFits(g, c) && Bilinear(x, y, c, g, rows, cols) == Stretch(px, py, w, h, x, y)
  {
    var c := CellIndices(x, y, rows, cols);
    CellContains(x, y, rows, cols);
    LatticeCell(px, py, w, h, rows, cols, c.row, c.col);
    BilinearOnEvenCell(x, y, c, Lattice(px, py, w, h, rows, cols), rows, cols, px, py, w, h);
  }

  /** The corners of a cell of the undeformed lattice. */
  lemma LatticeCell(px: real, py: real, w: real, h: real, rows: nat, cols: nat, i: int, j: int)
    requires rows >= 2 && cols >= 2 && 0 <= i < rows - 1 && 0 <= j < cols - 1
    ensures var g, p0, p3 := Lattice(px, py, w, h, rows, cols),
        EvenPoint(px, py, w, h, rows, cols, i, j), EvenPoint(px, py, w, h, rows, cols, i + 1, j + 1);
      CellFits(g, Cell(i, j)) &&
      g[i][j] == p0 && g[i + 1][j + 1] == p3 && g[i][j + 1] == Point(p3.x, p0.y) && g[i + 1][j] == Point(p0.x, p3.y)
  {
  }

  /** A cell whose corners sit where the undeformed lattice puts them maps (x, y) to its stretched position. */
  lemma BilinearOnEvenCell(x: real, y: real, c: Cell, g: Grid, rows: int, cols: int, px: real, py: real, w: real, h: real)
    requires rows >= 2 && cols >= 2 && CellFits(g, c)
    requires var p0, p3 := EvenPoint(px, py, w, h, rows, cols, c.row, c.col), EvenPoint(px, py, w, h, rows, cols, c.row + 1, c.col + 1);
      g[c.row][c.col] == p0 && g[c.row + 1][c.col + 1] == p3 &&
      g[c.row][c.col + 1] == Point(p3.x, p0.y) && g[c.row + 1][c.col] == Point(p0.x, p3.y)
    ensures Bilinear(x, y, c, g, rows, cols) == Stretch(px, py, w, h, x, y)
  {
    var p0, p3 := EvenPoint(px, py, w, h, rows, cols, c.row, c.col), EvenPoint(px, py, w, h, rows, cols, c.row + 1, c.col + 1);
    BilinearSeparable(x, y, c, g, rows, cols, p0.x, p3.x, p0.y, p3.y);
    LinearAlongAxis(px, w, cols - 1, c.col, x);
    LinearAlongAxis(py, h, rows - 1, c.row, y);
  }

  /** `Blend4Separable` for the cell `Bilinear` evaluates. */
  lemma BilinearSeparable(x: real, y: real, c: Cell, g: Grid, rows: int, cols: int, a: real, b: real, e: real, f: real)
    requires CellFits(g, c)
    requires g[c.row][c.col] == Point(a, e) && g[c.row][c.col + 1] == Point(b, e)
    requires g[c.row + 1][c.col] == Point(a, f) && g[c.row + 1][c.col + 1] == Point(b, f)
    ensures var u, v := x * (cols - 1) as real - c.col as real, y * (rows - 1) as real - c.row as real;
      Bilinear(x, y, c, g, rows, cols) == Point((1.0 - u) * a + u * b, (1.0 - v) * e + v * f)
  {
    Blend4Separable(a, b, e, f, x * (cols - 1) as real - c.col as real, y * (rows - 1) as real - c.row as real);
  }

  /** The linear blend of two neighbouring lattice coordinates at offset t·n − j is p + t·w. */
  lemma LinearAlongAxis(p: real, w: real, n: int, j: int, t: real)
    requires n >= 1
    ensures var u := t * n as real - j as real;
      (1.0 - u) * (p + (j as real / n as real) * w) + u * (p + ((j + 1) as real / n as real) * w) == p + t * w
  {
    var d := n as real;
    var u := t * d - j as real;
    var s := w / d;
    assert (j as real / d) * w == j as real * s;
    assert ((j + 1) as real / d) * w == (j + 1) as real * s;
    assert (1.0 - u) * (p + j as real * s) + u * (p + (j + 1) as real * s) == p + (j as real + u) * s;
    assert j as real + u == t * d;
    assert (t * d) * s == t * w;
  }

  /**
    The "expand" snapshot of versions 2 and 4: the left column moves left and the
    right column right by `shift`, the top row up and the bottom row down.  The
    vertical shifts come from the same loop index as the horizontal ones, so only
    the first `rows` entries of the top and bottom rows move: the loop assumes a
    square lattice.
  */
  function ShiftX(j: int, cols: int, shift: real): real
  {
    (if j == 0 then -shift else 0.0) + (if j == cols - 1 then shift else 0.0)
  }

  function ShiftY(i: int, j: int, rows: int, shift: real): real
  {
    (if i == 0 && j < rows then -shift else 0.0) + (if i == rows - 1 && j < rows then shift else 0.0)
  }

  function BorderShifted(g: Grid, shift: real, rows: nat, cols: nat): (r: Grid)
    requires 2 <= rows <= cols && IsRect(g, rows, cols)
    ensures IsRect(r, rows, cols)
    ensures r[0][0] == g[0][0].Translate(-shift, -shift)
    ensures r[rows - 1][cols - 1] == g[rows - 1][cols - 1].Translate(shift, if cols == rows then shift else 0.0)
    ensures forall i, j :: 0 < i < rows - 1 && 0 < j < cols - 1 ==> r[i][j] == g[i][j]
    ensures forall i :: 0 < i < rows - 1 ==> r[i][0] == g[i][0].Translate(-shift, 0.0)
    ensures forall j :: 0 < j < cols - 1 && j < rows ==> r[0][j] == g[0][j].Translate(0.0, -shift)
    ensures forall i :: 0 < i < rows - 1 ==> r[i][cols - 1] == g[i][cols - 1].Translate(shift, 0.0)
    ensures forall j {:trigger r[rows - 1][j]} :: 0 < j < cols - 1 && j < rows ==> r[rows - 1][j] == g[rows - 1][j].Translate(0.0, shift)
    ensures r[0][cols - 1] == g[0][cols - 1].Translate(shift, if cols == rows then -shift else 0.0)
    ensures r[rows - 1][0] == g[rows - 1][0].Translate(-shift, shift)
    ensures forall j :: rows <= j < cols ==> r[0][j].y == g[0][j].y && r[rows - 1][j].y == g[rows - 1][j].y
  {
    seq(rows, i requires 0 <= i < rows =>
      seq(cols, j requires 0 <= j < cols => g[i][j].Translate(ShiftX(j, cols, shift), ShiftY(i, j, rows, shift))))
  }

  /** A shift of 0 leaves the lattice where it is. */
  lemma BorderShiftedZero(g: Grid, rows: nat, cols: nat)
    requires 2 <= rows <= cols && IsRect(g, rows, cols)
    ensures BorderShifted(g, 0.0, rows, cols) == g
  {
    var r := BorderShifted(g, 0.0, rows, cols);
    forall i, j | 0 <= i < rows && 0 <= j < cols
      ensures r[i][j] == g[i][j]
    {
      TranslateZero(g[i][j]);
    }
    assert forall i :: 0 <= i < rows ==> r[i] == g[i];
  }

  /** Point (p, q) once the horizontal shifts of rows before m and the vertical shifts of columns before n are done. */
  function PartlyShifted(g: Grid, shift: real, rows: nat, cols: nat, m: int, n: int, p: int, q: int): Point
    requires IsRect(g, rows, cols) && 0 <= p < rows && 0 <= q < cols
  {
    Point(g[p][q].x + (if p < m then ShiftX(q, cols, shift) else 0.0),
          g[p][q].y + (if q < n then ShiftY(p, q, rows, shift) else 0.0))
  }

  /** The `for (i < rows)` loop that pushes the border of the expand snapshot outward. */
  method ShiftBorder(g: Grid, shift: real, rows: nat, cols: nat) returns (r: Grid)
    requires 2 <= rows <= cols && IsRect(g, rows, cols)
    ensures r == BorderShifted(g, shift, rows, cols)
  {
    r := g;
    var i := 0;
    while i < rows
      invariant 0 <= i <= rows
      invariant IsRect(r, rows, cols)
      invariant forall p, q :: 0 <= p < rows && 0 <= q < cols ==> r[p][q] == PartlyShifted(g, shift, rows, cols, i, i, p, q)
    {
      r := r[i := r[i][0 := r[i][0].Translate(-shift, 0.0)]];
      r := r[i := r[i][cols - 1 := r[i][cols - 1].Translate(shift, 0.0)]];
      r := r[0 := r[0][i := r[0][i].Translate(0.0, -shift)]];
      r := r[rows - 1 := r[rows - 1][i := r[rows - 1][i].Translate(0.0, shift)]];
      i := i + 1;
    }
    SameGrid(r, BorderShifted(g, shift, rows, cols), rows, cols);
  }

  /**
    The user points of a lattice: one per cell, at the midpoint of the cell's
    diagonal corners (i, j) and (i+1, j+1).
  */
  function Midpoints(g: Grid, rows: nat, cols: nat): (m: Grid)
    requires rows >= 1 && cols >= 1 && IsRect(g, rows, cols)
    ensures IsRect(m, rows - 1, cols - 1)
    ensures forall i, j {:trigger m[i][j]} :: 0 <= i < rows - 1 && 0 <= j < cols - 1 ==>
      m[i][j] == Lerp(g[i][j], g[i + 1][j + 1], 0.5)
  {
    seq(rows - 1, i requires 0 <= i < rows - 1 =>
      seq(cols - 1, j requires 0 <= j < cols - 1 => Midpoint(g[i][j], g[i + 1][j + 1])))
  }

  /** On the undeformed lattice the user point of a cell is the centre of that cell. */
  lemma MidpointsOfLattice(px: real, py: real, w: real, h: real, rows: nat, cols: nat, i: int, j: int)
    requires rows >= 2 && cols >= 2 && 0 <= i < rows - 1 && 0 <= j < cols - 1
    ensures var g := Lattice(px, py, w, h, rows, cols);
      Midpoints(g, rows, cols)[i][j] == Point((g[i][j].x + g[i][j + 1].x) / 2.0, (g[i][j].y + g[i + 1][j].y) / 2.0)
  {
    var g: Grid := Lattice(px, py, w, h, rows, cols);
    assert g[i + 1][j + 1].x == g[0][j + 1].x == g[i][j + 1].x;
    assert g[i + 1][j + 1].y == g[i + 1][0].y == g[i + 1][j].y;
  }

  /** The user-point loops of `setControlPoints`: rows i < rows − 1, entries j < cols − 1. */
  method BuildMidpoints(g: Grid, rows: nat, cols: nat) returns (m: Grid)
    requires rows >= 1 && cols >= 1 && IsRect(g, rows, cols)
    ensures m == Midpoints(g, rows, cols)
  {
    m := [];
    var i := 0;
    while i < rows - 1
      invariant 0 <= i <= rows - 1
      invariant |m| == i
      invariant forall p :: 0 <= p < i ==> m[p] == Midpoints(g, rows, cols)[p]
    {
      var row: seq<Point> := [];
      var j := 0;
      while j < cols - 1
        invariant 0 <= j <= cols - 1
        invariant |row| == j
        invariant forall q :: 0 <= q < j ==> row[q] == Lerp(g[i][q], g[i + 1][q + 1], 0.5)
      {
        var p1, p2 := g[i][j], g[i + 1][j + 1];
        row := row + [Point((p1.x + p2.x) / 2.0, (p1.y + p2.y) / 2.0)];
        j := j + 1;
      }
      m := m + [row];
      i := i + 1;
    }
  }

  /**
    The control points a user point (i, j) drags along: the lower corners
    (i+1, j) and (i+1, j+1) always, the upper corners (i, j) and (i, j+1) only
    when the lattice is not an arm (an arm's top row is its pinned elbow).
  */
  predicate IsCorner(isElbow: bool, i: int, j: int, a: int, b: int)
  {
    (a == i + 1 && (b == j || b == j + 1)) || (!isElbow && a == i && (b == j || b == j + 1))
  }

  /**
    The `+=` updates a user-point drag applies to one lattice: the corners of
    cell (i, j) move by (dx, dy), every other point stays.
  */
  function ShiftCorners(g: Grid, isElbow: bool, i: int, j: int, dx: real, dy: real): (r: Grid)
    requires CellFits(g, Cell(i, j))
    ensures SameShape(r, g) && Shape(r) == Shape(g)
  {
    var top := if isElbow then g[i] else g[i][j := g[i][j].Translate(dx, dy)][j + 1 := g[i][j + 1].Translate(dx, dy)];
    var bottom := g[i + 1][j := g[i + 1][j].Translate(dx, dy)][j + 1 := g[i + 1][j + 1].Translate(dx, dy)];
    g[i := top][i + 1 := bottom]
  }

  /** Point by point: the corners of the cell move by (dx, dy) and no other point moves. */
  lemma ShiftCornersEffect(g: Grid, isElbow: bool, i: int, j: int, dx: real, dy: real)
    requires CellFits(g, Cell(i, j))
    ensures var r := ShiftCorners(g, isElbow, i, j, dx, dy);
      forall a, b :: 0 <= a < |g| && 0 <= b < |g[a]| ==>
        r[a][b] == if IsCorner(isElbow, i, j, a, b) then g[a][b].Translate(dx, dy) else g[a][b]
  {
  }

  /**
    What a corner shift does to the midpoint of the cell's diagonal, where the
    cell's user point is placed: moving all four corners moves it by the full
    offset, moving only the lower two (an elbow) moves it by half the offset.
  */
  lemma ShiftCornersMidpoint(g: Grid, isElbow: bool, i: int, j: int, dx: real, dy: real)
    requires CellFits(g, Cell(i, j))
    ensures var r := ShiftCorners(g, isElbow, i, j, dx, dy);
      Midpoint(r[i][j], r[i + 1][j + 1]) ==
        if isElbow then Midpoint(g[i][j], g[i + 1][j + 1]).Translate(dx / 2.0, dy / 2.0)
        else Midpoint(g[i][j], g[i + 1][j + 1]).Translate(dx, dy)
  {
    var r := ShiftCorners(g, isElbow, i, j, dx, dy);
    assert r[i + 1][j + 1] == g[i + 1][j + 1].Translate(dx, dy);
    assert r[i][j] == if isElbow then g[i][j] else g[i][j].Translate(dx, dy);
  }

  /**
    A shape sample: its parametric (x, y) and its cell.  As in the demo,
    `gridX` holds the cell's ROW (computed from y) and `gridY` its COLUMN; they
    are read back as `[gridX, gridY]` = `[i, j]`, so the naming is wrong but
    the use is consistent.
  */
  datatype DrawnPoint = DrawnPoint(x: real, y: real, gridX: int, gridY: int)

  /** The demo's normalisation of a curve point into the unit square (domain half-width 17). */
  function Normalize(cx: real, cy: real): (r: (real, real))
    ensures -17.0 <= cx <= 17.0 ==> 0.0 <= r.0 <= 1.0
    ensures -17.0 <= cy <= 17.0 ==> 0.0 <= r.1 <= 1.0
  {
    (0.5 + cx / 34.0, 0.5 - cy / 34.0)
  }

  /** A sample tagged with its cell, as the shape samplers build it. */
  function Tag(x: real, y: real, rows: int, cols: int): (d: DrawnPoint)
    ensures d.x == x && d.y == y
    ensures rows >= 2 && cols >= 2 && 0.0 <= x <= 1.0 && 0.0 <= y <= 1.0 ==>
      0 <= d.gridX <= rows - 2 && 0 <= d.gridY <= cols - 2
  {
    var c := CellIndices(x, y, rows, cols);
    DrawnPoint(x, y, c.row, c.col)
  }

  /** The per-sample step of `drawShape`: evaluate the sample in the cell it was tagged with. */
  function Render(d: DrawnPoint, g: Grid, rows: int, cols: int): Point
    requires CellFits(g, Cell(d.gridX, d.gridY))
  {
    Bilinear(d.x, d.y, Cell(d.gridX, d.gridY), g, rows, cols)
  }

  /** A drawn sample is the bilinear blend of the four corners of its tagged cell. */
  lemma RenderCorners(d: DrawnPoint, g: Grid, rows: int, cols: int)
    requires CellFits(g, Cell(d.gridX, d.gridY))
    ensures var i, j := d.gridX, d.gridY;
      Render(d, g, rows, cols) == Blend4(g[i][j], g[i][j + 1], g[i + 1][j], g[i + 1][j + 1],
                                         d.x * (cols - 1) as real - j as real, d.y * (rows - 1) as real - i as real)
  {
  }

  /**
    Tagging with `gridX` = row and reading back `[gridX, gridY]` round-trips: a
    sample of the unit square drawn on the undeformed lattice lands on its
    stretched position.
  */
  lemma RenderUndeformed(px: real, py: real, w: real, h: real, rows: nat, cols: nat, x: real, y: real)
    requires rows >= 2 && cols >= 2 && 0.0 <= x <= 1.0 && 0.0 <= y <= 1.0
    ensures var g, d := Lattice(px, py, w, h, rows, cols), Tag(x, y, rows, cols);
      CellFits(g, Cell(d.gridX, d.gridY)) && Render(d, g, rows, cols) == Stretch(px, py, w, h, x, y)
  {
    BilinearUndeformed(px, py, w, h, rows, cols, x, y);
  }

  /**
    The same when only the first `rows` rows are the undeformed lattice and
    rows left over from a larger lattice follow: those rows are never read.
  */
  lemma RenderUndeformedPrefix(px: real, py: real, w: real, h: real, rows: nat, cols: nat, g: Grid, x: real, y: real)
    requires rows >= 2 && cols >= 2 && 0.0 <= x <= 1.0 && 0.0 <= y <= 1.0
    requires rows <= |g| && g[..rows] == Lattice(px, py, w, h, rows, cols)
    ensures var d := Tag(x, y, rows, cols);
      CellFits(g, Cell(d.gridX, d.gridY)) && Render(d, g, rows, cols) == Stretch(px, py, w, h, x, y)
  {
    var d := Tag(x, y, rows, cols);
    RenderUndeformed(px, py, w, h, rows, cols, x, y);
    RenderOnPrefix(d, g, rows, rows, cols);
  }

  /** Only the rows of the sample's cell matter: extra rows past them do not change the drawn point. */
  lemma RenderOnPrefix(d: DrawnPoint, g: Grid, n: int, rows: int, cols: int)
    requires 0 <= n <= |g| && CellFits(g[..n], Cell(d.gridX, d.gridY))
    ensures CellFits(g, Cell(d.gridX, d.gridY)) && Render(d, g, rows, cols) == Render(d, g[..n], rows, cols)
  {
    assert g[..n][d.gridX] == g[d.gridX] && g[..n][d.gridX + 1] == g[d.gridX + 1];
  }
}
