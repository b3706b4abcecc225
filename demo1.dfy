/**
  Version 1: one lattice whose size a slider sets.  The user drags its control
  points; the heart, sampled once in the unit square and tagged with its cells,
  is drawn through the deformed lattice by bilinear interpolation.
*/
module Demo1 {
  import opened Geometry
  import opened Deformation
  import opened Pointer

  /** PADDING: the lattice spans the canvas minus this margin on every side. */
  const Padding: real := 50.0

  /** The state of the version-1 page: the grid size, the control points and the grab. */
  class Scene {
    /** Canvas width and height; the lattice is GRID_WIDTH = width − 2·PADDING wide. */
    const width: real
    const height: real
    /** GRID_ROWS and GRID_COLS. */
    var rows: nat
    var cols: nat
    var controlPoints: Grid
    /** The grabbed control point (lattice 0), or none. */
    var dragging: Option<Target>

    /** The undeformed rows × cols lattice over the padded canvas. */
    function Undeformed(): Grid
      reads this
      requires rows >= 2 && cols >= 2
    {
      Lattice(Padding, Padding, width - 2.0 * Padding, height - 2.0 * Padding, rows, cols)
    }

    /**
      The first `rows` rows hold `cols` control points each (rows left over
      from a larger size may follow), and a grab names one of those points.
    */
    predicate Valid()
      reads this
    {
      rows >= 2 && cols >= 2 && |controlPoints| >= rows &&
      (forall i :: 0 <= i < rows ==> |controlPoints[i]| == cols) &&
      (dragging.Some? ==>
        dragging.value.k == 0 && dragging.value.isControl && 0 <= dragging.value.i < rows && 0 <= dragging.value.j < cols)
    }

    /** Page load: the slider's initial size, the undeformed lattice, no grab. */
    constructor(width: real, height: real, size: nat)
      requires size >= 2
      ensures Valid() && this.width == width && this.height == height
      ensures rows == size && cols == size && controlPoints == Undeformed() && dragging == None
    {
      this.width := width;
      this.height := height;
      rows, cols := size, size;
      controlPoints := [];
      dragging := None;
      new;
      SetControlPoints();
      OverwriteShorter([], Undeformed());
    }

    /**
      `setControlPoints`: row i < rows is replaced by row i of the undeformed
      lattice; rows at index rows and beyond keep what they held.
    */
    method SetControlPoints()
      requires rows >= 2 && cols >= 2
      modifies this
      ensures rows == old(rows) && cols == old(cols) && dragging == old(dragging)
      ensures controlPoints == Overwrite(old(controlPoints), Undeformed())
    {
      var next := Undeformed();
      var i := 0;
      while i < rows
        invariant 0 <= i <= rows
        invariant rows == old(rows) && cols == old(cols) && dragging == old(dragging)
        invariant controlPoints == Overwrite(old(controlPoints), next[..i])
      {
        var row := BuildRow(Padding, Padding, width - 2.0 * Padding, height - 2.0 * Padding, rows, cols, i);
        OverwriteStep(old(controlPoints), next[..i], row);
        assert next[..i] + [row] == next[..i + 1];
        if i < |controlPoints| {
          controlPoints := controlPoints[i := row];
        } else {
          controlPoints := controlPoints + [row];
        }
        i := i + 1;
      }
      assert next[..rows] == next;
    }

    /**
      The point slider: GRID_ROWS = GRID_COLS = size and the lattice is reset
      to the undeformed layout.  The slider is outside the canvas, so the
      pointer has left it and no grab is held.
    */
    method OnPointSlider(size: nat)
      requires Valid() && size >= 2 && dragging == None
      modifies this
      ensures Valid()
      ensures rows == size && cols == size && dragging == None
      ensures controlPoints == Overwrite(old(controlPoints), Undeformed())
    {
      rows, cols := size, size;
      SetControlPoints();
    }

    /**
      mousedown at canvas position (mx, my): the last control point within
      reach in row-major order is grabbed; a miss keeps the current grab.
    */
    method MouseDown(mx: real, my: real)
      requires Valid()
      modifies this
      ensures Valid()
      ensures dragging == ScanGrid(controlPoints, rows, mx, my, 0, true, old(dragging))
      ensures controlPoints == old(controlPoints) && rows == old(rows) && cols == old(cols)
    {
      ScanGridFindsLastHit(controlPoints, rows, mx, my, 0, true, dragging);
      dragging := ScanLattice(controlPoints, rows, mx, my, 0, true, dragging);
    }

    /**
      mousemove: with a grab, exactly the grabbed control point moves to the
      pointer; without one nothing changes.
    */
    method MouseMove(mx: real, my: real)
      requires Valid()
      modifies this
      ensures Valid()
      ensures dragging == old(dragging) && rows == old(rows) && cols == old(cols)
      ensures old(dragging).None? ==> controlPoints == old(controlPoints)
      ensures old(dragging).Some? ==> var t := old(dragging).value;
        SameShape(controlPoints, old(controlPoints)) && controlPoints[t.i][t.j] == Point(mx, my) &&
        forall a, b :: 0 <= a < |controlPoints| && 0 <= b < |controlPoints[a]| && (a != t.i || b != t.j) ==>
          controlPoints[a][b] == old(controlPoints)[a][b]
    {
      if dragging.Some? {
        var t := dragging.value;
        controlPoints := controlPoints[t.i := controlPoints[t.i][t.j := Point(mx, my)]];
      }
    }

    /** mouseup and mouseleave: drop the grab and change nothing else. */
    method Release()
      modifies this
      ensures dragging == None
      ensures controlPoints == old(controlPoints) && rows == old(rows) && cols == old(cols)
    {
      dragging := None;
    }

    /** `getCellIndices` with the current GRID_ROWS and GRID_COLS. */
    function CellOf(x: real, y: real): (c: Cell)
      reads this
      ensures Valid() && 0.0 <= x <= 1.0 && 0.0 <= y <= 1.0 ==>
        0 <= c.row <= rows - 2 && 0 <= c.col <= cols - 2 && CellFits(controlPoints, c)
    {
      var c := CellIndices(x, y, rows, cols);
      if rows >= 2 && cols >= 2 && 0.0 <= x <= 1.0 && 0.0 <= y <= 1.0 then
        CellContains(x, y, rows, cols);
        c
      else c
    }

    /** One sample of `drawShape`: `bilinearInterp` of its (x, y) in its tagged cell. */
    function Draw(d: DrawnPoint): Point
      reads this
      requires CellFits(controlPoints, Cell(d.gridX, d.gridY))
    {
      Render(d, controlPoints, rows, cols)
    }

    /**
      While the lattice is undeformed, a sample (x, y) of the unit square is
      drawn at (PADDING + x·GRID_WIDTH, PADDING + y·GRID_HEIGHT).
    */
    lemma DrawUndeformed(x: real, y: real)
      requires Valid() && controlPoints[..rows] == Undeformed()
      requires 0.0 <= x <= 1.0 && 0.0 <= y <= 1.0
      ensures var d := Tag(x, y, rows, cols);
        CellFits(controlPoints, Cell(d.gridX, d.gridY)) &&
        Draw(d) == Stretch(Padding, Padding, width - 2.0 * Padding, height - 2.0 * Padding, x, y)
    {
      RenderUndeformedPrefix(Padding, Padding, width - 2.0 * Padding, height - 2.0 * Padding, rows, cols, controlPoints, x, y);
    }
  }
}
