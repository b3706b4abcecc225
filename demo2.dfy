/**
  Version 2: a fixed 4-by-4 lattice that animates on its own.  Two keyframes
  are kept: `state1`, the undeformed lattice, and `state2`, the lattice with its
  border pushed outward by the size slider's `shift`.  Every frame blends the
  live control points from one keyframe towards the other with the eased
  progress, and when a direction completes the next direction starts.
*/
module Demo2 {
  import opened Geometry
  import opened Deformation
  import opened Easing
  import opened Timeline
  import opened Keyframe

  /** GRID_ROWS and GRID_COLS. */
  const GridRows: nat := 4
  const GridCols: nat := 4
  /** PADDING around the lattice. */
  const Padding: real := 50.0

  /** The state of the version-2 page. */
  class Scene {
    /** Canvas width and height (WIDTH, HEIGHT). */
    const width: real
    const height: real
    /** The speed slider's value: directions per second. */
    var speed: real
    /** The size slider's value: how far the border moves outward in `state2`. */
    var shift: real
    var controlPoints: Grid
    var state1: Grid
    var state2: Grid
    /** Start time of the current direction; 0 means not started. */
    var currTime: real
    /** `animateFunction` is `toState2` (true) or `toState1` (false). */
    var forward: bool

    /** The undeformed lattice over the padded canvas. */
    function Undeformed(): (g: Grid)
      reads this
      ensures IsRect(g, GridRows, GridCols)
    {
      Lattice(Padding, Padding, width - 2.0 * Padding, height - 2.0 * Padding, GridRows, GridCols)
    }

    /** The expanded keyframe for size `s`: the undeformed lattice with its border pushed out by s. */
    function Expanded(s: real): (g: Grid)
      reads this
      ensures IsRect(g, GridRows, GridCols)
    {
      BorderShifted(Undeformed(), s, GridRows, GridCols)
    }

    /** The keyframe the current direction blends from, and the one it blends towards. */
    function From(): Grid
      reads this
    {
      if forward then state1 else state2
    }

    function To(): Grid
      reads this
    {
      if forward then state2 else state1
    }

    /** All three lattices are 4 by 4. */
    predicate Valid()
      reads this
    {
      IsRect(controlPoints, GridRows, GridCols) && IsRect(state1, GridRows, GridCols) && IsRect(state2, GridRows, GridCols)
    }

    /**
      Page load: the sliders' initial values are read, the live lattice and
      `state1` are the undeformed lattice, `state2` is its expansion, and the
      animation waits to start towards `state2`.
    */
    constructor(width: real, height: real, speed: real, shift: real)
      ensures Valid() && this.width == width && this.height == height
      ensures this.speed == speed && this.shift == shift
      ensures controlPoints == Undeformed() && state1 == Undeformed() && state2 == Expanded(shift)
      ensures currTime == 0.0 && forward
    {
      this.width, this.height := width, height;
      this.speed, this.shift := speed, shift;
      currTime, forward := 0.0, true;
      new;
      var g := BuildLattice(Padding, Padding, width - 2.0 * Padding, height - 2.0 * Padding, GridRows, GridCols);
      controlPoints, state1 := g, g;
      state2 := ShiftBorder(g, shift, GridRows, GridCols);
    }

    /** The speed slider: only the speed changes. */
    method OnSpeedSlider(value: real)
      modifies this
      ensures speed == value
      ensures shift == old(shift) && controlPoints == old(controlPoints) && state1 == old(state1) && state2 == old(state2)
      ensures currTime == old(currTime) && forward == old(forward)
    {
      speed := value;
    }

    /**
      The size slider: `state2` is rebuilt from the undeformed lattice and
      pushed out by the new size.  The live lattice keeps its pose until the
      next frame blends towards the new keyframe.
    */
    method OnSizeSlider(value: real)
      requires Valid()
      modifies this
      ensures Valid()
      ensures shift == value && state2 == Expanded(value)
      ensures speed == old(speed) && controlPoints == old(controlPoints) && state1 == old(state1)
      ensures currTime == old(currTime) && forward == old(forward)
    {
      shift := value;
      var g := BuildLattice(Padding, Padding, width - 2.0 * Padding, height - 2.0 * Padding, GridRows, GridCols);
      state2 := ShiftBorder(g, shift, GridRows, GridCols);
    }

    /**
      One frame of `toState2` / `toState1`: anchor the start time if unset,
      measure the progress u; past 1, switch direction and reset the start
      time; otherwise overwrite every control point with the blend of the two
      keyframes at the eased progress.
    */
    method Animate(timestamp: real)
      requires Valid()
      modifies this
      ensures Valid()
      ensures speed == old(speed) && shift == old(shift) && state1 == old(state1) && state2 == old(state2)
      ensures currTime == Tick(old(currTime), timestamp, speed).0
      ensures var step := Tick(old(currTime), timestamp, speed).1;
        if step.Flip? then forward == !old(forward) && controlPoints == old(controlPoints)
        else forward == old(forward) && controlPoints == Blended(old(controlPoints), From(), To(), step.weight)
    {
      if currTime == 0.0 {
        currTime := timestamp;
      }
      var u := Progress(timestamp - currTime, speed);
      var eased := Ease(Clamp(u));
      assert Tick(old(currTime), timestamp, speed).1 == Decide(u);
      if u > 1.0 {
        forward := !forward;
        currTime := 0.0;
        return;
      }
      assert Clamp(u) == u;
      if forward {
        controlPoints := BlendInto(controlPoints, state1, state2, eased);
      } else {
        controlPoints := BlendInto(controlPoints, state2, state1, eased);
      }
    }

    /**
      The first frame of a direction starts it at its own timestamp and blends
      with weight 0, so the live lattice lands exactly on the keyframe the
      direction starts from.
    */
    lemma FirstFrameShowsSource(timestamp: real)
      requires Valid() && currTime == 0.0
      ensures Tick(currTime, timestamp, speed) == (timestamp, Blend(0.0))
      ensures Blended(controlPoints, From(), To(), 0.0) == From()
    {
      FirstTickStartsAtSource(timestamp, speed);
      BlendedEndpoints(controlPoints, From(), To());
    }

    /** With the size slider at 0 the two keyframes coincide and the animation holds still. */
    lemma ZeroSizeHoldsStill()
      ensures Expanded(0.0) == Undeformed()
    {
      BorderShiftedZero(Undeformed(), GridRows, GridCols);
    }

    /** One sample of `drawHeart`: `bilinearInterp` of its (x, y) in its tagged cell. */
    function Draw(d: DrawnPoint): Point
      reads this
      requires CellFits(controlPoints, Cell(d.gridX, d.gridY))
    {
      Render(d, controlPoints, GridRows, GridCols)
    }

    /**
      While the live lattice is the undeformed one, a sample (x, y) of the unit
      square is drawn at (PADDING + x·GRID_WIDTH, PADDING + y·GRID_HEIGHT).
    */
    lemma DrawAtRest(x: real, y: real)
      requires controlPoints == Undeformed()
      requires 0.0 <= x <= 1.0 && 0.0 <= y <= 1.0
      ensures var d := Tag(x, y, GridRows, GridCols);
        CellFits(controlPoints, Cell(d.gridX, d.gridY)) &&
        Draw(d) == Stretch(Padding, Padding, width - 2.0 * Padding, height - 2.0 * Padding, x, y)
    {
      RenderUndeformed(Padding, Padding, width - 2.0 * Padding, height - 2.0 * Padding, GridRows, GridCols, x, y);
    }
  }
}
