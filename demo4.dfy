/**
  Version 4: two 4-by-4 lattices, the heart's and the head's, each with a
  grid of user points at the midpoints of its cells' diagonals.  Control
  points are dragged directly; dragging a user point carries the four corners
  of its cell along.  The keyframe tick is still present but its call in
  `animate` is commented out, so it never runs.
*/
module Demo4 {
  import opened Geometry
  import opened Deformation
  import opened Easing
  import opened Timeline
  import opened Keyframe
  import opened Pointer

  /** GRID_ROWS and GRID_COLS; `setControlPoints` is never given other dimensions. */
  const GridRows: nat := 4
  const GridCols: nat := 4
  const Padding: real := 50.0
  /** The speed and size sliders are commented out and replaced by these values. */
  const Speed: real := 1.0
  const Shift: real := 1.0
  /** The offsets of the heart's lattice (PADDING·6) and of the head's. */
  const HeartPadding: real := Padding * 6.0
  const HeadPadding: real := 10.0

  /** Row lengths of a user grid: three rows of three midpoints, then an empty row. */
  const UserShape: seq<nat> := [3, 3, 3, 0]

  /**
    The user grid `setControlPoints` builds for lattice g: rows 0 to 2 hold
    the midpoints of the diagonals of their cells, and row 3 is left empty
    because the loop skips it with `continue`.
  */
  function UserLayout(g: Grid): (m: Grid)
    requires IsRect(g, GridRows, GridCols)
    ensures Shape(m) == UserShape
    ensures forall i, j {:trigger m[i][j]} :: 0 <= i < GridRows - 1 && 0 <= j < GridCols - 1 ==> m[i][j] == Lerp(g[i][j], g[i + 1][j + 1], 0.5)
  {
    var m := Midpoints(g, GridRows, GridCols) + [[]];
    assert Shape(m) == UserShape;
    m
  }

  /**
    The user-point loops: for every row i < rows a fresh row is started, and
    every entry with j = cols − 1 or i = rows − 1 is skipped.
  */
  method BuildUserPoints(g: Grid) returns (m: Grid)
    requires IsRect(g, GridRows, GridCols)
    ensures m == UserLayout(g)
  {
    var mids := Midpoints(g, GridRows, GridCols);
    m := [];
    var i := 0;
    while i < GridRows
      invariant 0 <= i <= GridRows && |m| == i
      invariant forall p :: 0 <= p < i ==> m[p] == UserLayout(g)[p]
    {
      var row: seq<Point> := [];
      var j := 0;
      while j < GridCols
        invariant 0 <= j <= GridCols
        invariant i == GridRows - 1 ==> row == []
        invariant i < GridRows - 1 ==> row == mids[i][..Min(j, GridCols - 1)]
      {
        if j == GridCols - 1 || i == GridRows - 1 {
          j := j + 1;
          continue;
        }
        var p1, p2 := g[i][j], g[i + 1][j + 1];
        row := row + [Point((p1.x + p2.x) / 2.0, (p1.y + p2.y) / 2.0)];
        j := j + 1;
      }
      if i < GridRows - 1 {
        assert row == mids[i];
      }
      m := m + [row];
      i := i + 1;
    }
    assert m == UserLayout(g);
  }

  /**
    A user-point drag keeps the user point centred: when it sat at the
    midpoint of its cell's diagonal, then after moving it to (mx, my) and the
    four corners by the same offset it again sits at that midpoint.
  */
  lemma DragKeepsCentre(g: Grid, i: int, j: int, prev: Point, mx: real, my: real)
    requires CellFits(g, Cell(i, j)) && prev == Midpoint(g[i][j], g[i + 1][j + 1])
    ensures var r := ShiftCorners(g, false, i, j, mx - prev.x, my - prev.y);
      Midpoint(r[i][j], r[i + 1][j + 1]) == Point(mx, my)
  {
    ShiftCornersMidpoint(g, false, i, j, mx - prev.x, my - prev.y);
  }

  /**
    The four `+=` updates of a user-point drag, one corner after another, end
    in the grid where exactly the four corners of the cell have moved by the
    pointer's offset.
  */
  lemma FourCornerMoves(g0: Grid, g1: Grid, g2: Grid, g3: Grid, g4: Grid, i: nat, j: nat, dx: real, dy: real)
    requires CellFits(g0, Cell(i, j))
    requires g1 == Set2(g0, i, j, g0[i][j].Translate(dx, dy))
    requires g2 == Set2(g1, i + 1, j, g1[i + 1][j].Translate(dx, dy))
    requires g3 == Set2(g2, i, j + 1, g2[i][j + 1].Translate(dx, dy))
    requires g4 == Set2(g3, i + 1, j + 1, g3[i + 1][j + 1].Translate(dx, dy))
    ensures g4 == ShiftCorners(g0, false, i, j, dx, dy)
  {
    var s := ShiftCorners(g0, false, i, j, dx, dy);
    ShiftCornersEffect(g0, false, i, j, dx, dy);
    forall a, b | 0 <= a < |g0| && 0 <= b < |g0[a]|
      ensures g4[a][b] == s[a][b]
    {
    }
    assert forall a :: 0 <= a < |g0| ==> g4[a] == s[a];
  }

  /** The state of the version-4 page. */
  class Scene {
    const width: real
    const height: real
    /** `grids` = [heartGrid, headGrid] and `userGrids` = [heartUserGrid, headUserGrid]. */
    var grids: seq<Grid>
    var userGrids: seq<Grid>
    /** The keyframes; shared by both `setControlPoints` calls, so the last call wins. */
    var init: Grid
    var expand: Grid
    var currTime: real
    /** `animateFunction` is `expandPos` (true) or `returnToInitPos` (false). */
    var forward: bool
    var dragging: Option<Target>

    function GridWidth(): real
    {
      width - 2.0 * Padding
    }

    function GridHeight(): real
    {
      height - 2.0 * Padding
    }

    /** Both lattices are set up GRID_WIDTH/2 wide and GRID_HEIGHT/2 high. */
    function BoxWidth(): real
    {
      GridWidth() / 2.0
    }

    function BoxHeight(): real
    {
      GridHeight() / 2.0
    }

    /** The lattices of the two `setControlPoints` calls at setup. */
    function HeartLattice(): Grid
    {
      Lattice(HeartPadding, HeartPadding, BoxWidth(), BoxHeight(), GridRows, GridCols)
    }

    function HeadLattice(): Grid
    {
      Lattice(HeadPadding, HeadPadding, BoxWidth(), BoxHeight(), GridRows, GridCols)
    }

    /** The keyframe the current direction blends from, and the one it blends towards. */
    function From(): Grid
      reads this
    {
      if forward then init else expand
    }

    function To(): Grid
      reads this
    {
      if forward then expand else init
    }

    /** A grab names a control point (4 by 4) or a user point (3 by 3) of lattice 0 or 1. */
    static predicate Fits(t: Target)
    {
      0 <= t.k < 2 &&
      if t.isControl then 0 <= t.i < GridRows && 0 <= t.j < GridCols
      else 0 <= t.i < GridRows - 1 && 0 <= t.j < GridCols - 1
    }

    predicate Valid()
      reads this
    {
      |grids| == 2 && |userGrids| == 2 &&
      IsRect(grids[0], GridRows, GridCols) && IsRect(grids[1], GridRows, GridCols) &&
      Shape(userGrids[0]) == UserShape && Shape(userGrids[1]) == UserShape &&
      IsRect(init, GridRows, GridCols) && IsRect(expand, GridRows, GridCols) &&
      (dragging.Some? ==> Fits(dragging.value))
    }

    /**
      Page load: `setControlPoints` for the heart at PADDING·6 and then for the
      head at 10, both GRID_WIDTH/2 by GRID_HEIGHT/2.  The keyframes end up
      describing the head, the lattice of the second call.
    */
    constructor(width: real, height: real)
      ensures Valid() && this.width == width && this.height == height
      ensures grids[0] == HeartLattice() && grids[1] == HeadLattice()
      ensures userGrids[0] == UserLayout(HeartLattice()) && userGrids[1] == UserLayout(HeadLattice())
      ensures init == HeadLattice() && expand == BorderShifted(HeadLattice(), Shift, GridRows, GridCols)
      ensures currTime == 0.0 && forward && dragging == None
    {
      this.width, this.height := width, height;
      grids, userGrids := [[], []], [[], []];
      init, expand := [], [];
      currTime, forward, dragging := 0.0, true, None;
      new;
      SetControlPoints(0, HeartPadding, BoxWidth(), BoxHeight());
      SetControlPoints(1, HeadPadding, BoxWidth(), BoxHeight());
    }

    /**
      `setControlPoints(grids[k], userGrids[k], padding, width, height)`: rows
      0 to 3 of the lattice, of `init` and of `expand` are replaced by the even
      lattice at (padding, padding), `expand`'s border is pushed out by `shift`,
      and rows 0 to 3 of the user grid are replaced by its layout.  Rows past
      the fourth, if any, would survive.
    */
    method SetControlPoints(k: nat, padding: real, w: real, h: real)
      requires |grids| == 2 && |userGrids| == 2 && k < 2
      modifies this
      ensures grids == old(grids)[k := Overwrite(old(grids)[k], Lattice(padding, padding, w, h, GridRows, GridCols))]
      ensures userGrids == old(userGrids)[k := Overwrite(old(userGrids)[k], UserLayout(Lattice(padding, padding, w, h, GridRows, GridCols)))]
      ensures init == Overwrite(old(init), Lattice(padding, padding, w, h, GridRows, GridCols))
      ensures expand == Overwrite(old(expand), BorderShifted(Lattice(padding, padding, w, h, GridRows, GridCols), Shift, GridRows, GridCols))
      ensures currTime == old(currTime) && forward == old(forward) && dragging == old(dragging)
      ensures |old(grids)[k]| <= GridRows ==> grids[k] == Lattice(padding, padding, w, h, GridRows, GridCols)
      ensures |old(userGrids)[k]| <= GridRows ==> userGrids[k] == UserLayout(Lattice(padding, padding, w, h, GridRows, GridCols))
      ensures |old(init)| <= GridRows ==> init == Lattice(padding, padding, w, h, GridRows, GridCols)
      ensures |old(expand)| <= GridRows ==> expand == BorderShifted(Lattice(padding, padding, w, h, GridRows, GridCols), Shift, GridRows, GridCols)
    {
      var g := BuildLattice(padding, padding, w, h, GridRows, GridCols);
      grids := grids[k := Overwrite(grids[k], g)];
      init := Overwrite(init, g);
      var e := ShiftBorder(g, Shift, GridRows, GridCols);
      expand := Overwrite(expand, e);
      var users := BuildUserPoints(g);
      userGrids := userGrids[k := Overwrite(userGrids[k], users)];
    }

    /**
      mousedown: scan the control points of both lattices, then their user
      points; the last point within reach wins, so a user point overrides a
      control point, and a miss keeps the current grab.  No animation guard.
    */
    method MouseDown(mx: real, my: real)
      requires Valid()
      modifies this
      ensures Valid()
      ensures dragging == ScanAll(grids, userGrids, mx, my, old(dragging))
      ensures grids == old(grids) && userGrids == old(userGrids) && init == old(init) && expand == old(expand)
      ensures currTime == old(currTime) && forward == old(forward)
    {
      UserPointsWin(grids, userGrids, mx, my, dragging);
      var r := ScanLattices(grids, mx, my, true, dragging);
      r := ScanLattices(userGrids, mx, my, false, r);
      if r.Some? && !r.value.isControl && r != dragging {
        var t := r.value;
        assert Shape(userGrids[t.k])[t.i] == UserShape[t.i];
      }
      dragging := r;
    }

    /**
      mousemove: a grabbed control point moves to the pointer; a grabbed user
      point moves to the pointer and the four corners of its cell move by the
      same offset.  Nothing else changes, and `init`/`expand` are untouched.
    */
    method MouseMove(mx: real, my: real)
      requires Valid()
      modifies this
      ensures Valid()
      ensures dragging == old(dragging) && init == old(init) && expand == old(expand)
      ensures currTime == old(currTime) && forward == old(forward)
      ensures old(dragging).None? ==> grids == old(grids) && userGrids == old(userGrids)
      ensures old(dragging).Some? && old(dragging).value.isControl ==> var t := old(dragging).value;
        userGrids == old(userGrids) && grids == old(grids)[t.k := Set2(old(grids)[t.k], t.i, t.j, Point(mx, my))]
      ensures old(dragging).Some? && !old(dragging).value.isControl ==> var t := old(dragging).value;
        var prev := old(userGrids)[t.k][t.i][t.j];
        userGrids == old(userGrids)[t.k := Set2(old(userGrids)[t.k], t.i, t.j, Point(mx, my))] &&
        grids == old(grids)[t.k := ShiftCorners(old(grids)[t.k], false, t.i, t.j, mx - prev.x, my - prev.y)]
    {
      if dragging.Some? {
        var t := dragging.value;
        if t.isControl {
          grids := grids[t.k := Set2(grids[t.k], t.i, t.j, Point(mx, my))];
        } else {
          assert Shape(userGrids[t.k])[t.i] == UserShape[t.i];
          var prev := userGrids[t.k][t.i][t.j];
          userGrids := userGrids[t.k := Set2(userGrids[t.k], t.i, t.j, Point(mx, my))];
          var dx, dy := mx - prev.x, my - prev.y;
          var g0: Grid := grids[t.k];
          var g1: Grid := Set2(g0, t.i, t.j, g0[t.i][t.j].Translate(dx, dy));
          var g2: Grid := Set2(g1, t.i + 1, t.j, g1[t.i + 1][t.j].Translate(dx, dy));
          var g3: Grid := Set2(g2, t.i, t.j + 1, g2[t.i][t.j + 1].Translate(dx, dy));
          var g4: Grid := Set2(g3, t.i + 1, t.j + 1, g3[t.i + 1][t.j + 1].Translate(dx, dy));
          FourCornerMoves(g0, g1, g2, g3, g4, t.i, t.j, dx, dy);
          grids := grids[t.k := g4];
        }
      }
    }

    /** mouseup and mouseleave: drop the grab and change nothing else. */
    method Release()
      modifies this
      ensures dragging == None
      ensures grids == old(grids) && userGrids == old(userGrids) && init == old(init) && expand == old(expand)
      ensures currTime == old(currTime) && forward == old(forward)
    {
      dragging := None;
    }

    /**
      One call of `expandPos` / `returnToInitPos` (dead code: `animate` does not
      call it): anchor the start time if unset; past progress 1, switch
      direction and reset the start time; otherwise overwrite the heart's
      lattice with the blend of `init` and `expand`.
    */
    method Advance(timestamp: real)
      requires Valid()
      modifies this
      ensures Valid()
      ensures userGrids == old(userGrids) && init == old(init) && expand == old(expand) && dragging == old(dragging)
      ensures currTime == Tick(old(currTime), timestamp, Speed).0
      ensures var step := Tick(old(currTime), timestamp, Speed).1;
        if step.Flip? then forward == !old(forward) && grids == old(grids)
        else forward == old(forward) && grids == old(grids)[0 := Blended(old(grids)[0], From(), To(), step.weight)]
    {
      if currTime == 0.0 {
        currTime := timestamp;
      }
      var u := Progress(timestamp - currTime, Speed);
      var eased := Ease(Clamp(u));
      assert Tick(old(currTime), timestamp, Speed).1 == Decide(u);
      if u > 1.0 {
        forward := !forward;
        currTime := 0.0;
        return;
      }
      assert Clamp(u) == u;
      var heart := BlendInto(grids[0], From(), To(), eased);
      grids := grids[0 := heart];
    }

    /** One sample of `drawShape` through lattice k: `bilinearInterp` in its tagged cell, with the 4-by-4 dimensions. */
    function Draw(d: DrawnPoint, k: nat): Point
      reads this
      requires k < |grids| && CellFits(grids[k], Cell(d.gridX, d.gridY))
    {
      Render(d, grids[k], GridRows, GridCols)
    }

    /**
      Before any drag the heart is drawn inside the heart's box: a sample (x, y)
      of the unit square lands at (300 + x·GRID_WIDTH/2, 300 + y·GRID_HEIGHT/2).
    */
    lemma DrawHeartAtRest(x: real, y: real)
      requires |grids| == 2 && grids[0] == HeartLattice()
      requires 0.0 <= x <= 1.0 && 0.0 <= y <= 1.0
      ensures var d := Tag(x, y, GridRows, GridCols);
        CellFits(grids[0], Cell(d.gridX, d.gridY)) &&
        Draw(d, 0) == Stretch(HeartPadding, HeartPadding, BoxWidth(), BoxHeight(), x, y)
    {
      RenderUndeformed(HeartPadding, HeartPadding, BoxWidth(), BoxHeight(), GridRows, GridCols, x, y);
    }
  }
}
