/**
  Keyframe blending: every animated version overwrites a live lattice, point by
  point, with the blend of two snapshots of the same lattice (`state1`/`state2`
  in version 2, `init`/`expand` in versions 4 and 5).
*/
module Keyframe {
  import opened Geometry
  import opened Easing
  import opened Deformation

  /** Both snapshots have an entry wherever the live grid has one (the blend loops read them there). */
  predicate Covers(live: Grid, from: Grid, to: Grid)
  {
    |from| >= |live| && |to| >= |live| &&
    forall i :: 0 <= i < |live| ==> |from[i]| >= |live[i]| && |to[i]| >= |live[i]|
  }

  /**
    The live grid after a blend at weight e: same shape, and every entry is
    `(1 - e)·from + e·to` of the snapshots' entries at that index.
  */
  function Blended(live: Grid, from: Grid, to: Grid, e: real): (r: Grid)
    requires Covers(live, from, to)
    ensures SameShape(r, live)
    ensures forall i, j :: 0 <= i < |live| && 0 <= j < |live[i]| ==> r[i][j] == Lerp(from[i][j], to[i][j], e)
  {
    seq(|live|, i requires 0 <= i < |live| =>
      seq(|live[i]|, j requires 0 <= j < |live[i]| => Lerp(from[i][j], to[i][j], e)))
  }

  /**
    The blend loop of the tick functions: for every row i of the live grid and
    every entry j of that row, overwrite the entry with the blend of the
    snapshots.
  */
  method BlendInto(live: Grid, from: Grid, to: Grid, e: real) returns (r: Grid)
    requires Covers(live, from, to)
    ensures r == Blended(live, from, to, e)
  {
    r := live;
    var i := 0;
    while i < |r|
      invariant 0 <= i <= |r| == |live|
      invariant forall a :: 0 <= a < |live| ==> |r[a]| == |live[a]|
      invariant forall a, b :: 0 <= a < i && 0 <= b < |live[a]| ==> r[a][b] == Lerp(from[a][b], to[a][b], e)
    {
      var j := 0;
      while j < |r[i]|
        invariant |r| == |live| && 0 <= j <= |r[i]| == |live[i]|
        invariant forall a :: 0 <= a < |live| ==> |r[a]| == |live[a]|
        invariant forall a, b :: 0 <= a < i && 0 <= b < |live[a]| ==> r[a][b] == Lerp(from[a][b], to[a][b], e)
        invariant forall b :: 0 <= b < j ==> r[i][b] == Lerp(from[i][b], to[i][b], e)
      {
        r := r[i := r[i][j := Lerp(from[i][j], to[i][j], e)]];
        j := j + 1;
      }
      i := i + 1;
    }
    var b := Blended(live, from, to, e);
    assert forall a :: 0 <= a < |live| ==> r[a] == b[a];
  }

  /**
    At weight 0 the live grid becomes the snapshot it blends from, at weight 1
    the snapshot it blends to (when the snapshots have the live grid's shape).
  */
  lemma BlendedEndpoints(live: Grid, from: Grid, to: Grid)
    requires SameShape(from, live) && SameShape(to, live)
    ensures Blended(live, from, to, 0.0) == from
    ensures Blended(live, from, to, 1.0) == to
  {
    var b0, b1 := Blended(live, from, to, 0.0), Blended(live, from, to, 1.0);
    assert forall i :: 0 <= i < |live| ==> b0[i] == from[i];
    assert forall i :: 0 <= i < |live| ==> b1[i] == to[i];
  }

  /** Blending backwards with weight e is blending forwards with weight 1 − e. */
  lemma BlendedReversed(live: Grid, from: Grid, to: Grid, e: real)
    requires Covers(live, from, to)
    ensures Blended(live, to, from, e) == Blended(live, from, to, 1.0 - e)
  {
    var b, c := Blended(live, to, from, e), Blended(live, from, to, 1.0 - e);
    forall i, j | 0 <= i < |live| && 0 <= j < |live[i]|
      ensures b[i][j] == c[i][j]
    {
      LerpSwap(to[i][j], from[i][j], e);
    }
    assert forall i :: 0 <= i < |live| ==> b[i] == c[i];
  }

  /**
    The return trip retraces the outward trip: at progress u the backward blend
    shows the pose the forward blend shows at progress 1 − u.
  */
  lemma ReturnRetracesOutward(live: Grid, from: Grid, to: Grid, u: real)
    requires Covers(live, from, to)
    ensures Blended(live, to, from, Ease(u)) == Blended(live, from, to, Ease(1.0 - u))
  {
    BlendedReversed(live, from, to, Ease(u));
    EaseSymmetric(u);
  }

  /** Moving both snapshots by (dx, dy) moves the blend by (dx, dy). */
  lemma BlendedTranslate(live: Grid, from: Grid, to: Grid, e: real, dx: real, dy: real)
    requires Covers(live, from, to)
    ensures Covers(live, TranslateGrid(from, dx, dy), TranslateGrid(to, dx, dy))
    ensures Blended(live, TranslateGrid(from, dx, dy), TranslateGrid(to, dx, dy), e) == TranslateGrid(Blended(live, from, to, e), dx, dy)
  {
    var f, t := TranslateGrid(from, dx, dy), TranslateGrid(to, dx, dy);
    var b, c := Blended(live, f, t, e), TranslateGrid(Blended(live, from, to, e), dx, dy);
    forall i, j | 0 <= i < |live| && 0 <= j < |live[i]|
      ensures b[i][j] == c[i][j]
    {
      LerpTranslate(from[i][j], to[i][j], e, dx, dy);
    }
    assert forall i :: 0 <= i < |live| ==> b[i] == c[i];
  }

  /**
    The drawn shape follows the lattice linearly: a sample drawn through the
    blend of two snapshots is the same blend of the sample drawn through each
    snapshot, so during an animation every point of the shape travels on the
    straight segment between its two keyframe positions.
  */
  lemma RenderBlended(d: DrawnPoint, live: Grid, from: Grid, to: Grid, e: real, rows: int, cols: int)
    requires Covers(live, from, to) && CellFits(live, Cell(d.gridX, d.gridY))
    ensures CellFits(Blended(live, from, to, e), Cell(d.gridX, d.gridY))
    ensures CellFits(from, Cell(d.gridX, d.gridY)) && CellFits(to, Cell(d.gridX, d.gridY))
    ensures Render(d, Blended(live, from, to, e), rows, cols) == Lerp(Render(d, from, rows, cols), Render(d, to, rows, cols), e)
  {
    var i, j := d.gridX, d.gridY;
    var u := d.x * (cols - 1) as real - j as real;
    var v := d.y * (rows - 1) as real - i as real;
    var b := Blended(live, from, to, e);
    Blend4Lerp(from[i][j], from[i][j + 1], from[i + 1][j], from[i + 1][j + 1],
               to[i][j], to[i][j + 1], to[i + 1][j], to[i + 1][j + 1],
               b[i][j], b[i][j + 1], b[i + 1][j], b[i + 1][j + 1], u, v, e);
    RenderCorners(d, b, rows, cols);
    RenderCorners(d, from, rows, cols);
    RenderCorners(d, to, rows, cols);
  }
}
