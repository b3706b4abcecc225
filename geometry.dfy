/**
  Points on the canvas and the two-dimensional arrays ("grids") that every
  version of the demo keeps them in.  Coordinates are `real`: the demo works in
  IEEE doubles, whose rounding is not modelled.
*/
module Geometry {

  /** A canvas position: the `{x, y}` objects of the demo. */
  datatype Point = Point(x: real, y: real) {

    /** The point moved by (dx, dy): what a pair of `+=` updates does. */
    function Translate(dx: real, dy: real): (r: Point)
      ensures r.x - x == dx && r.y - y == dy
    {
      Point(x + dx, y + dy)
    }

    /**
      The point reflected through the centre m, written as `makeUpsideDown`
      does it: subtract the centre, negate, add the centre back.
    */
    function ReflectThrough(m: Point): (r: Point)
      ensures r.x == 2.0 * m.x - x && r.y == 2.0 * m.y - y
    {
      Point(-(x - m.x) + m.x, -(y - m.y) + m.y)
    }
  }

  /** Moving by nothing leaves a point where it is. */
  lemma TranslateZero(p: Point)
    ensures p.Translate(0.0, 0.0) == p
  {
  }

  /** The offset that takes `from` to `to`: what `newX - oldX`, `newY - oldY` compute. */
  function Offset(from: Point, to: Point): (d: Point)
    ensures from.Translate(d.x, d.y) == to
  {
    Point(to.x - from.x, to.y - from.y)
  }

  /** The product of two non-negative reals is non-negative. */
  lemma MulNonneg(a: real, b: real)
    requires 0.0 <= a && 0.0 <= b
    ensures 0.0 <= a * b
  {
  }

  /** Two moves in a row are one move by the summed offsets. */
  lemma TranslateTwice(p: Point, dx1: real, dy1: real, dx2: real, dy2: real)
    ensures p.Translate(dx1, dy1).Translate(dx2, dy2) == p.Translate(dx1 + dx2, dy1 + dy2)
  {
  }

  /** A rows-by-columns array of points, indexed `[i][j]` = `[row][column]`. */
  type Grid = seq<seq<Point>>

  /**
    The blend `(1 - e)·a + e·b` used for keyframe animation: weight 0 gives `a`,
    weight 1 gives `b`.
  */
  function Lerp(a: Point, b: Point, e: real): (r: Point)
    ensures e == 0.0 ==> r == a
    ensures e == 1.0 ==> r == b
    ensures a == b ==> r == a
  {
    Point(LerpCoord(a.x, b.x, e), LerpCoord(a.y, b.y, e))
  }

  /** One coordinate of Lerp. */
  function LerpCoord(a: real, b: real, e: real): real
  {
    (1.0 - e) * a + e * b
  }

  /** Blending two translated points is translating their blend. */
  lemma LerpTranslate(a: Point, b: Point, e: real, dx: real, dy: real)
    ensures Lerp(a.Translate(dx, dy), b.Translate(dx, dy), e) == Lerp(a, b, e).Translate(dx, dy)
  {
    assert (1.0 - e) * (a.x + dx) + e * (b.x + dx) == (1.0 - e) * a.x + e * b.x + dx;
    assert (1.0 - e) * (a.y + dy) + e * (b.y + dy) == (1.0 - e) * a.y + e * b.y + dy;
  }

  /** Running the blend backwards with weight e is running it forwards with weight 1 - e. */
  lemma LerpSwap(a: Point, b: Point, e: real)
    ensures Lerp(b, a, e) == Lerp(a, b, 1.0 - e)
  {
  }

  /** Blending two reflected points is reflecting their blend. */
  lemma LerpReflect(a: Point, b: Point, e: real, m: Point)
    ensures Lerp(a.ReflectThrough(m), b.ReflectThrough(m), e) == Lerp(a, b, e).ReflectThrough(m)
  {
    assert (1.0 - e) * (2.0 * m.x - a.x) + e * (2.0 * m.x - b.x) == 2.0 * m.x - ((1.0 - e) * a.x + e * b.x);
    assert (1.0 - e) * (2.0 * m.y - a.y) + e * (2.0 * m.y - b.y) == 2.0 * m.y - ((1.0 - e) * a.y + e * b.y);
  }

  /** Reflecting twice through the same centre gives the point back. */
  lemma ReflectTwice(p: Point, m: Point)
    ensures p.ReflectThrough(m).ReflectThrough(m) == p
  {
  }

  /** The midpoint of two points, used to place user points. */
  function Midpoint(a: Point, b: Point): (r: Point)
    ensures r == Lerp(a, b, 0.5)
  {
    Point((a.x + b.x) / 2.0, (a.y + b.y) / 2.0)
  }

  /** The row lengths of a two-dimensional array. */
  function Shape<T>(g: seq<seq<T>>): (s: seq<nat>)
    ensures |s| == |g|
    ensures forall i :: 0 <= i < |g| ==> s[i] == |g[i]|
  {
    seq(|g|, i requires 0 <= i < |g| => |g[i]|)
  }

  /** Two two-dimensional arrays with the same row lengths. */
  predicate SameShape<T, U>(a: seq<seq<T>>, b: seq<seq<U>>)
  {
    |a| == |b| && forall i :: 0 <= i < |a| ==> |a[i]| == |b[i]|
  }

  /** The shape of a rows-by-cols rectangle. */
  function RectShape(rows: nat, cols: nat): (s: seq<nat>)
    ensures |s| == rows
    ensures forall i :: 0 <= i < rows ==> s[i] == cols
  {
    seq(rows, _ => cols)
  }

  /** `g` has exactly `rows` rows of exactly `cols` entries each. */
  predicate IsRect<T>(g: seq<seq<T>>, rows: nat, cols: nat)
  {
    |g| == rows && forall i :: 0 <= i < rows ==> |g[i]| == cols
  }

  /** Two lattices of the same shape are equal when they agree point by point. */
  lemma SameGrid<T>(a: seq<seq<T>>, b: seq<seq<T>>, rows: nat, cols: nat)
    requires IsRect(a, rows, cols) && IsRect(b, rows, cols)
    requires forall i, j :: 0 <= i < rows && 0 <= j < cols ==> a[i][j] == b[i][j]
    ensures a == b
  {
    assert forall i :: 0 <= i < rows ==> a[i] == b[i];
  }

  lemma RectShapeIsRect<T>(g: seq<seq<T>>, rows: nat, cols: nat)
    ensures Shape(g) == RectShape(rows, cols) <==> IsRect(g, rows, cols)
  {
    if IsRect(g, rows, cols) {
      assert Shape(g) == RectShape(rows, cols);
    }
  }

  /**
    The result of the demo's `for (i < n) arr[i] = <next row>` loops on an
    array that may already be longer: the first rows are replaced, the rows
    past them survive.
  */
  function Overwrite<T>(prev: seq<T>, next: seq<T>): (r: seq<T>)
    ensures |r| == if |prev| > |next| then |prev| else |next|
    ensures r[..|next|] == next
    ensures forall i :: |next| <= i < |r| ==> r[i] == prev[i]
  {
    if |prev| > |next| then next + prev[|next|..] else next
  }

  /**
    One more step of such a loop: writing row |next| replaces that row when the
    old array reaches that far and appends it otherwise.
  */
  lemma OverwriteStep<T>(prev: seq<T>, next: seq<T>, x: T)
    ensures var o := Overwrite(prev, next);
      Overwrite(prev, next + [x]) == if |next| < |o| then o[|next| := x] else o + [x]
  {
    var o, o2 := Overwrite(prev, next), Overwrite(prev, next + [x]);
    if |next| < |o| {
      assert |o2| == |o[|next| := x]|;
      forall i | 0 <= i < |o2|
        ensures o2[i] == o[|next| := x][i]
      {
        if i < |next| + 1 {
          assert o2[..|next| + 1][i] == (next + [x])[i];
        }
      }
    }
  }

  /** A shorter array is simply replaced. */
  lemma OverwriteShorter<T>(prev: seq<T>, next: seq<T>)
    requires |prev| <= |next|
    ensures Overwrite(prev, next) == next
  {
  }

  /** The grid with entry [i][j] replaced by p (grids keep their shape). */
  function Set2<T>(g: seq<seq<T>>, i: nat, j: nat, p: T): (r: seq<seq<T>>)
    requires i < |g| && j < |g[i]|
    ensures Shape(r) == Shape(g)
    ensures r[i][j] == p
    ensures forall a, b :: 0 <= a < |g| && 0 <= b < |g[a]| && (a != i || b != j) ==> r[a][b] == g[a][b]
  {
    g[i := g[i][j := p]]
  }

  /** Every point of a grid translated by (dx, dy). */
  function TranslateGrid(g: Grid, dx: real, dy: real): (r: Grid)
    ensures Shape(r) == Shape(g)
    ensures forall i, j :: 0 <= i < |g| && 0 <= j < |g[i]| ==> r[i][j] == g[i][j].Translate(dx, dy)
  {
    seq(|g|, i requires 0 <= i < |g| => seq(|g[i]|, j requires 0 <= j < |g[i]| => g[i][j].Translate(dx, dy)))
  }

  /** Translating a grid twice is translating it once by the summed offsets. */
  lemma TranslateGridTwice(g: Grid, dx1: real, dy1: real, dx2: real, dy2: real)
    ensures TranslateGrid(TranslateGrid(g, dx1, dy1), dx2, dy2) == TranslateGrid(g, dx1 + dx2, dy1 + dy2)
  {
    var a, b := TranslateGrid(TranslateGrid(g, dx1, dy1), dx2, dy2), TranslateGrid(g, dx1 + dx2, dy1 + dy2);
    assert forall i :: 0 <= i < |g| ==> a[i] == b[i];
  }

  /** Translating a grid by nothing leaves it as it is. */
  lemma TranslateGridZero(g: Grid)
    ensures TranslateGrid(g, 0.0, 0.0) == g
  {
    var a := TranslateGrid(g, 0.0, 0.0);
    assert forall i :: 0 <= i < |g| ==> a[i] == g[i];
  }

  /** Arrays with the same row lengths have the same shape. */
  lemma SameShapeShape<T, U>(a: seq<seq<T>>, b: seq<seq<U>>)
    requires SameShape(a, b)
    ensures Shape(a) == Shape(b)
  {
  }

  /** Squared Euclidean distance, compared against 10² instead of `Math.hypot(...) < 10`. */
  function SquaredDistance(p: Point, mx: real, my: real): (d: real)
    ensures d >= 0.0
    ensures p == Point(mx, my) ==> d == 0.0
  {
    var ex := mx - p.x;
    var ey := my - p.y;
    assert ex * ex >= 0.0 && ey * ey >= 0.0;
    ex * ex + ey * ey
  }

  /** The pointer (mx, my) is within the demo's 10-pixel pick radius of p. */
  predicate Near(p: Point, mx: real, my: real)
  {
    SquaredDistance(p, mx, my) < 100.0
  }

  function Min(a: int, b: int): (m: int)
    ensures m <= a && m <= b && (m == a || m == b)
  {
    if a < b then a else b
  }
}
