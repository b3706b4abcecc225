/**
  Version 5: a puppet of four lattices (body 2 by 2, head 4 by 4, two arms
  2 by 2), each with handles at its cells' diagonal midpoints and with two
  keyframes for the lattice and for the handles.  The tick drives every
  handle to its blend position through `changeControlWithUser`; the body's
  one handle drags head and arms along; the animation can be paused; the
  body is flipped upside down at setup.
*/
module Demo5 {
  import opened Geometry
  import opened Deformation
  import opened Easing
  import opened Timeline
  import opened Keyframe
  import opened Pointer
  import opened Puppet

  const Padding: real := 50.0
  /** GRID_ROWS and GRID_COLS, the default dimensions of `setControlPoints` (used by the head). */
  const GridRows: nat := 4
  const GridCols: nat := 4
  /** The speed slider is commented out and replaced by this value. */
  const Speed: real := 1.0
  /** The lattices the body's handle drags along: head and both arms. */
  const BodyDependents: seq<int> := [1, 2, 3]

  /** A part before `setControlPoints` has filled it: six empty arrays. */
  const Fresh: Part := Part([], [], [], [], [], [], [])

  /** A rows-by-cols grid of empty dependent lists: the `indicesOfDependentGrid = []` default of every new handle. */
  function NoLinks(rows: nat, cols: nat): (l: seq<seq<seq<int>>>)
    ensures IsRect(l, rows, cols)
    ensures forall i, j :: 0 <= i < rows && 0 <= j < cols ==> l[i][j] == []
  {
    seq(rows, _ => seq(cols, _ => []))
  }

  /** The part `setControlPoints` lays out: the even lattice three times, its diagonal midpoints three times, no dependents. */
  function LaidOut(px: real, py: real, w: real, h: real, rows: nat, cols: nat): (p: Part)
    requires rows >= 2 && cols >= 2
    ensures Shaped(p) && |p.live| == rows && |p.live[0]| == cols
  {
    var g := Lattice(px, py, w, h, rows, cols);
    var m := Midpoints(g, rows, cols);
    Part(g, g, g, m, m, m, NoLinks(rows - 1, cols - 1))
  }

  /**
    A laid-out part is at rest: both keyframes are its own lattice and its
    own handles, so it sits on the blend at every weight.
  */
  lemma LaidOutAtRest(px: real, py: real, w: real, h: real, rows: nat, cols: nat, e: real)
    requires rows >= 2 && cols >= 2
    ensures Settled(LaidOut(px, py, w, h, rows, cols), e)
  {
    var p := LaidOut(px, py, w, h, rows, cols);
    OnBlendMeansBlended(p.live, p.init, p.expand, e);
    OnBlendMeansBlended(p.handles, p.handleInit, p.handleExpand, e);
  }

  /**
    The seven arrays of `prev` after the loops of `setControlPoints` wrote
    `next` into them row by row: rows past `next`'s survive.
  */
  function Relaid(prev: Part, next: Part): Part
  {
    Part(Overwrite(prev.live, next.live), Overwrite(prev.init, next.init), Overwrite(prev.expand, next.expand),
         Overwrite(prev.handles, next.handles), Overwrite(prev.handleInit, next.handleInit),
         Overwrite(prev.handleExpand, next.handleExpand), Overwrite(prev.links, next.links))
  }

  /** Laid out on fresh arrays, a part is exactly the laid-out part. */
  lemma RelaidFresh(next: Part)
    ensures Relaid(Fresh, next) == next
  {
  }

  /**
    `setControlPoints(controlPoints, userPoints, init, expand, init_user,
    expand_user, px, py, w, h, rows, cols)`: the lattice loops, then the
    handle loops.
  */
  method SetControlPoints(prev: Part, px: real, py: real, w: real, h: real, rows: nat, cols: nat) returns (p: Part)
    requires rows >= 2 && cols >= 2
    ensures p == Relaid(prev, LaidOut(px, py, w, h, rows, cols))
  {
    var g := BuildLattice(px, py, w, h, rows, cols);
    var m := BuildMidpoints(g, rows, cols);
    p := Part(Overwrite(prev.live, g), Overwrite(prev.init, g), Overwrite(prev.expand, g),
              Overwrite(prev.handles, m), Overwrite(prev.handleInit, m), Overwrite(prev.handleExpand, m),
              Overwrite(prev.links, NoLinks(rows - 1, cols - 1)));
  }

  /**
    What a pose function (`giveWalk`, `giveNod`, `setLeftArmMotion`,
    `setRightArmMotion`) leaves in a part: the arm poses first overwrite the
    live lattice and the live handles (`live` and `handles` are `Some`), all
    four write the keyframes.  The literal offsets they add are not modelled,
    the result is taken as given.
  */
  datatype Pose = Pose(live: Option<Grid>, handles: Option<Grid>,
                       init: Grid, expand: Grid, handleInit: Grid, handleExpand: Grid)

  /** The pose functions only move points, so a pose has the shape of the part it is applied to. */
  predicate PoseFits(pose: Pose, rows: nat, cols: nat)
  {
    rows >= 2 && cols >= 2 &&
    (pose.live.Some? ==> IsRect(pose.live.value, rows, cols)) &&
    (pose.handles.Some? ==> IsRect(pose.handles.value, rows - 1, cols - 1)) &&
    IsRect(pose.init, rows, cols) && IsRect(pose.expand, rows, cols) &&
    IsRect(pose.handleInit, rows - 1, cols - 1) && IsRect(pose.handleExpand, rows - 1, cols - 1)
  }

  /** The part after the pose: the live arrays where the pose overwrites them, and the keyframes. */
  function Posed(p: Part, pose: Pose): Part
  {
    p.(live := if pose.live.Some? then pose.live.value else p.live,
       handles := if pose.handles.Some? then pose.handles.value else p.handles,
       init := pose.init, expand := pose.expand, handleInit := pose.handleInit, handleExpand := pose.handleExpand)
  }

  /** A fitting pose keeps a laid-out part laid out and keeps its layout, links included. */
  lemma PosedShaped(p: Part, pose: Pose)
    requires Shaped(p) && PoseFits(pose, |p.live|, |p.live[0]|)
    ensures Shaped(Posed(p, pose)) && LayoutOf(Posed(p, pose)) == LayoutOf(p)
  {
    var q := Posed(p, pose);
    assert Shape(q.live) == Shape(p.live) && Shape(q.handles) == Shape(p.handles);
    assert Shape(q.init) == Shape(p.init) && Shape(q.expand) == Shape(p.expand);
    assert Shape(q.handleInit) == Shape(p.handleInit) && Shape(q.handleExpand) == Shape(p.handleExpand);
  }

  /**
    The poses of the page load: `giveWalk` for the body and `giveNod` for the
    head, which leave the live arrays, and `setLeftArmMotion` and
    `setRightArmMotion` for the arms, which overwrite them and copy the new
    live lattice into both of its keyframes.
  */
  predicate PageLoadPoses(poses: seq<Pose>)
  {
    |poses| == 4 &&
    PoseFits(poses[0], 2, 2) && PoseFits(poses[1], GridRows, GridCols) &&
    PoseFits(poses[2], 2, 2) && PoseFits(poses[3], 2, 2) &&
    poses[0].live.None? && poses[0].handles.None? && poses[1].live.None? && poses[1].handles.None? &&
    poses[2].live.Some? && poses[2].handles.Some? && poses[3].live.Some? && poses[3].handles.Some? &&
    poses[2].init == poses[2].expand == poses[2].live.value &&
    poses[3].init == poses[3].expand == poses[3].live.value
  }

  /** The setup's last line: the body's handle in the last row, first column, drags lattices 1, 2 and 3. */
  function Linked(p: Part): Part
    requires |p.links| > 0 && |p.links[|p.links| - 1]| > 0
  {
    p.(links := Set2(p.links, |p.links| - 1, 0, BodyDependents))
  }

  /** The lattice of the dragged handle and the lattice it drags are the same arrays the scan reported. */
  function Lives(parts: seq<Part>): (gs: seq<Grid>)
    ensures |gs| == |parts| && forall k :: 0 <= k < |parts| ==> gs[k] == parts[k].live
  {
    seq(|parts|, k requires 0 <= k < |parts| => parts[k].live)
  }

  function HandleGrids(parts: seq<Part>): (gs: seq<Grid>)
    ensures |gs| == |parts| && forall k :: 0 <= k < |parts| ==> gs[k] == parts[k].handles
  {
    seq(|parts|, k requires 0 <= k < |parts| => parts[k].handles)
  }

  /** The four `setControlPoints` calls at setup, for a drawing area gw wide and gh high. */
  function BodyLayout(gw: real, gh: real): Part
  {
    LaidOut(gw / 3.0, Padding * 4.0, gw / 2.0, gh * 8.0 / 10.0, 2, 2)
  }

  function HeadLayout(gw: real, gh: real): Part
  {
    LaidOut(gw / 3.0, 10.0, gw / 2.0, gh / 2.0, GridRows, GridCols)
  }

  function ArmLLayout(gw: real): Part
  {
    LaidOut(gw * 2.0 / 3.0, Padding * 6.0, 90.0, 150.0, 2, 2)
  }

  function ArmRLayout(gw: real): Part
  {
    LaidOut(gw / 3.0, Padding * 6.0, 90.0, 150.0, 2, 2)
  }

  /** The body after `giveWalk`, `makeUpsideDown` and the link to head and arms. */
  function Body(gw: real, gh: real, pose: Pose): Part
    requires PoseFits(pose, 2, 2)
  {
    PosedLaidOut(gw / 3.0, Padding * 4.0, gw / 2.0, gh * 8.0 / 10.0, 2, 2, pose);
    UpsideDownLayout(Posed(BodyLayout(gw, gh), pose));
    Linked(UpsideDown(Posed(BodyLayout(gw, gh), pose)))
  }

  /**
    Linking the one handle of a 2-by-2 lattice to head and arms keeps it
    laid out, links it only to the four lattices, and makes that handle the
    only one the keyframe loop moves.
  */
  lemma LinkedFacts(p: Part)
    requires Shaped(p) && |p.links| == 1 && |p.links[0]| == 1
    ensures Shaped(Linked(p)) && LinksIn(Linked(p).links, 4) && SoleLinked(Linked(p).links, 0, 0)
  {
    var l := Linked(p).links;
    assert l[0][0] == BodyDependents;
    assert LinkedRun(l[0]) == 1 by {
      assert LinkedRun(l[0][1..]) == 0;
    }
  }

  /** The body is laid out, links only to the four lattices, and has a single linked handle. */
  lemma BodyFacts(gw: real, gh: real, pose: Pose)
    requires PoseFits(pose, 2, 2)
    ensures Shaped(Body(gw, gh, pose)) && LinksIn(Body(gw, gh, pose).links, 4)
    ensures SoleLinked(Body(gw, gh, pose).links, 0, 0)
  {
    var q := Posed(BodyLayout(gw, gh), pose);
    PosedLaidOut(gw / 3.0, Padding * 4.0, gw / 2.0, gh * 8.0 / 10.0, 2, 2, pose);
    UpsideDownLayout(q);
    LinkedFacts(UpsideDown(q));
  }

  /** A posed, freshly laid-out part is laid out and links to nothing. */
  lemma PosedLaidOut(px: real, py: real, w: real, h: real, rows: nat, cols: nat, pose: Pose)
    requires rows >= 2 && cols >= 2 && PoseFits(pose, rows, cols)
    ensures Shaped(Posed(LaidOut(px, py, w, h, rows, cols), pose))
    ensures |Posed(LaidOut(px, py, w, h, rows, cols), pose).links| == rows - 1
    ensures |Posed(LaidOut(px, py, w, h, rows, cols), pose).links[0]| == cols - 1
    ensures forall i, j :: 0 <= i < rows - 1 && 0 <= j < cols - 1 ==> Posed(LaidOut(px, py, w, h, rows, cols), pose).links[i][j] == []
  {
    PosedShaped(LaidOut(px, py, w, h, rows, cols), pose);
  }

  /** The four lattices after the setup, for a drawing area gw wide and gh high. */
  function Assembled(gw: real, gh: real, poses: seq<Pose>): seq<Part>
    requires |poses| == 4 && PoseFits(poses[0], 2, 2)
  {
    [Body(gw, gh, poses[0]), Posed(HeadLayout(gw, gh), poses[1]), Posed(ArmLLayout(gw), poses[2]), Posed(ArmRLayout(gw), poses[3])]
  }

  /**
    With the page load's poses, the setup leaves a sound puppet whose body has a
    single linked handle.
  */
  lemma AssembledSound(gw: real, gh: real, poses: seq<Pose>)
    requires PageLoadPoses(poses)
    ensures Sound(Assembled(gw, gh, poses)) && SoleLinked(Assembled(gw, gh, poses)[0].links, 0, 0)
  {
    BodyFacts(gw, gh, poses[0]);
    PosedLaidOut(gw / 3.0, 10.0, gw / 2.0, gh / 2.0, GridRows, GridCols, poses[1]);
    PosedLaidOut(gw * 2.0 / 3.0, Padding * 6.0, 90.0, 150.0, 2, 2, poses[2]);
    PosedLaidOut(gw / 3.0, Padding * 6.0, 90.0, 150.0, 2, 2, poses[3]);
  }

  /** A `setControlPoints` call on fresh arrays followed by the part's pose function. */
  method LayOut(px: real, py: real, w: real, h: real, rows: nat, cols: nat, pose: Pose) returns (p: Part)
    requires rows >= 2 && cols >= 2 && PoseFits(pose, rows, cols)
    ensures p == Posed(LaidOut(px, py, w, h, rows, cols), pose)
  {
    p := SetControlPoints(Fresh, px, py, w, h, rows, cols);
    RelaidFresh(LaidOut(px, py, w, h, rows, cols));
    p := Posed(p, pose);
  }

  /** The four `setControlPoints` calls of the page load, each followed by its pose function. */
  method LayOutAll(gw: real, gh: real, poses: seq<Pose>) returns (body: Part, head: Part, armL: Part, armR: Part)
    requires PageLoadPoses(poses)
    ensures body == Posed(LaidOut(gw / 3.0, Padding * 4.0, gw / 2.0, gh * 8.0 / 10.0, 2, 2), poses[0])
    ensures head == Posed(LaidOut(gw / 3.0, 10.0, gw / 2.0, gh / 2.0, GridRows, GridCols), poses[1])
    ensures armL == Posed(LaidOut(gw * 2.0 / 3.0, Padding * 6.0, 90.0, 150.0, 2, 2), poses[2])
    ensures armR == Posed(LaidOut(gw / 3.0, Padding * 6.0, 90.0, 150.0, 2, 2), poses[3])
  {
    body := LayOut(gw / 3.0, Padding * 4.0, gw / 2.0, gh * 8.0 / 10.0, 2, 2, poses[0]);
    head := LayOut(gw / 3.0, 10.0, gw / 2.0, gh / 2.0, GridRows, GridCols, poses[1]);
    armL := LayOut(gw * 2.0 / 3.0, Padding * 6.0, 90.0, 150.0, 2, 2, poses[2]);
    armR := LayOut(gw / 3.0, Padding * 6.0, 90.0, 150.0, 2, 2, poses[3]);
  }

  /** The end of the page load: `makeUpsideDown` on the body, then the body's link to head and arms. */
  method FlipAndLink(body: Part) returns (r: Part)
    requires Shaped(body) && |body.links| == 1 && |body.links[0]| == 1
    ensures r == Linked(UpsideDown(body))
  {
    r := MakeUpsideDown(body);
    r := r.(links := Set2(r.links, |r.links| - 1, 0, BodyDependents));
  }

  /** The page-load code. */
  method SetUp(gw: real, gh: real, poses: seq<Pose>) returns (parts: seq<Part>)
    requires PageLoadPoses(poses)
    ensures parts == Assembled(gw, gh, poses)
  {
    var body, head, armL, armR := LayOutAll(gw, gh, poses);
    PosedLaidOut(gw / 3.0, Padding * 4.0, gw / 2.0, gh * 8.0 / 10.0, 2, 2, poses[0]);
    body := FlipAndLink(body);
    parts := [body, head, armL, armR];
  }

  /** The state of the version-5 page. */
  class Scene {
    const width: real
    const height: real
    /** Part k holds `grids[k]`, `initGrids[k]`, `expandGrids[k]`, `userGrids[k]`, `userInitGrids[k]`, `userExpandGrids[k]`. */
    var parts: seq<Part>
    /** `startTime` and `timeDiff`. */
    var clock: Clock
    /** `animateFunction` is `expandPos` (true) or `returnToInitPos` (false). */
    var forward: bool
    var isAnimating: bool
    var dragging: Option<Target>

    function GridWidth(): real
    {
      width - 2.0 * Padding
    }

    function GridHeight(): real
    {
      height - 2.0 * Padding
    }

    /** A grab names a control point or a handle of one of the parts. */
    predicate Fits(t: Target)
      reads this
    {
      0 <= t.k < |parts| &&
      var (rows, cols) := Size(parts[t.k]);
      if t.isControl then 0 <= t.i < rows && 0 <= t.j < cols
      else 0 <= t.i < rows - 1 && 0 <= t.j < cols - 1
    }

    predicate Valid()
      reads this
    {
      |parts| == 4 && Sound(parts) && (dragging.Some? ==> Fits(dragging.value))
    }

    /**
      Page load: lay out and pose the body, the head and the two arms, flip
      the body upside down, and let the body's handle drag the other three.
      That handle is then the only linked one of the body, so dragging it
      keeps the puppet on its keyframe blend (`DragKeepsSettled`).
    */
    constructor(width: real, height: real, poses: seq<Pose>)
      requires PageLoadPoses(poses)
      ensures Valid() && this.width == width && this.height == height
      ensures parts == Assembled(GridWidth(), GridHeight(), poses)
      ensures SoleLinked(parts[0].links, 0, 0)
      ensures clock == Clock(0.0, 0.0) && forward && !isAnimating && dragging == None
    {
      this.width, this.height := width, height;
      clock, forward, isAnimating, dragging := Clock(0.0, 0.0), true, false, None;
      new;
      parts := SetUp(GridWidth(), GridHeight(), poses);
      AssembledSound(GridWidth(), GridHeight(), poses);
    }

    /**
      The animation checkbox: flip `isAnimating`; turning it off negates
      `timeDiff`, which the next tick reads as "resume from here".  The
      animation-frame request is not modelled.
    */
    method ToggleAnimation()
      modifies this
      ensures isAnimating == !old(isAnimating)
      ensures clock == if isAnimating then old(clock) else Pause(old(clock))
      ensures parts == old(parts) && forward == old(forward) && dragging == old(dragging)
    {
      isAnimating := !isAnimating;
      if !isAnimating {
        clock := clock.(timeDiff := -clock.timeDiff);
      }
    }

    /**
      One call of `expandPos` / `returnToInitPos`: settle the start time, measure
      the elapsed time; past progress 1 flip the direction and reset the start
      time; otherwise run the tick, after which every lattice and every handle
      sits on the blend of its keyframes at the eased weight.
    */
    method Advance(timestamp: real)
      requires Valid()
      modifies this
      ensures Valid()
      ensures clock == ClockTick(old(clock), timestamp, Speed).0
      ensures isAnimating == old(isAnimating) && dragging == old(dragging)
      ensures var step := ClockTick(old(clock), timestamp, Speed).1;
        if step.Flip? then forward == !old(forward) && parts == old(parts)
        else (forward == old(forward) && parts == Apply(old(parts), Block(TickOrder(old(parts))), forward, step.weight) &&
          SameLayouts(old(parts), parts) && SameSizes(old(parts), parts) &&
          forall m :: 0 <= m < |parts| ==> Settled(parts[m], Weight(forward, step.weight)))
    {
      var start := clock.startTime;
      if start == 0.0 {
        start := timestamp;
      } else if clock.timeDiff < 0.0 {
        start := timestamp + clock.timeDiff;
      }
      var diff := timestamp - start;
      var u := Progress(diff, Speed);
      var eased := Ease(Clamp(u));
      assert ClockTick(old(clock), timestamp, Speed).1 == Decide(u);
      if u > 1.0 {
        forward := !forward;
        clock := Clock(0.0, diff);
        return;
      }
      clock := Clock(start, diff);
      parts := Puppet.Tick(parts, forward, eased);
    }

    /** `animate`: tick only while the animation runs (the drawing that follows is not modelled). */
    method Animate(timestamp: real)
      requires Valid()
      modifies this
      ensures Valid()
      ensures !old(isAnimating) ==> parts == old(parts) && clock == old(clock) && forward == old(forward)
      ensures old(isAnimating) ==> clock == ClockTick(old(clock), timestamp, Speed).0
      ensures old(isAnimating) ==> var step := ClockTick(old(clock), timestamp, Speed).1;
        if step.Flip? then forward == !old(forward) && parts == old(parts)
        else (forward == old(forward) && parts == Apply(old(parts), Block(TickOrder(old(parts))), forward, step.weight) &&
          SameLayouts(old(parts), parts) &&
          forall m :: 0 <= m < |parts| ==> Settled(parts[m], Weight(forward, step.weight)))
      ensures isAnimating == old(isAnimating) && dragging == old(dragging)
    {
      if isAnimating {
        Advance(timestamp);
      }
    }

    /**
      mousedown: ignored while animating; otherwise scan the control points of
      every lattice, then every handle; the last point within reach wins, so a
      handle overrides a control point, and a miss keeps the current grab.
    */
    method MouseDown(mx: real, my: real)
      requires Valid()
      modifies this
      ensures Valid()
      ensures dragging == if old(isAnimating) then old(dragging)
        else ScanAll(Lives(parts), HandleGrids(parts), mx, my, old(dragging))
      ensures parts == old(parts) && clock == old(clock) && forward == old(forward) && isAnimating == old(isAnimating)
    {
      if !isAnimating {
        var controls, users := Lives(parts), HandleGrids(parts);
        UserPointsWin(controls, users, mx, my, dragging);
        var r := ScanLattices(controls, mx, my, true, dragging);
        r := ScanLattices(users, mx, my, false, r);
        if r.Some? && r != dragging {
          var t := r.value;
          PartFacts(parts, t.k);
        }
        dragging := r;
      }
    }

    /**
      mousemove (no animation guard): a grabbed control point moves to the
      pointer, except the pinned top row of an arm; a grabbed handle is
      dragged with `changeControlWithUser`, followed by the keyframe loop when
      it lists dependent lattices.
    */
    method MouseMove(mx: real, my: real)
      requires Valid()
      modifies this
      ensures Valid()
      ensures dragging == old(dragging) && clock == old(clock) && forward == old(forward) && isAnimating == old(isAnimating)
      ensures old(dragging).None? ==> parts == old(parts)
      ensures old(dragging).Some? && old(dragging).value.isControl ==> var t := old(dragging).value;
        if IsArm(t.k) && t.i == 0 then parts == old(parts)
        else parts == old(parts)[t.k := old(parts)[t.k].(live := Set2(old(parts)[t.k].live, t.i, t.j, Point(mx, my)))]
      ensures old(dragging).Some? && !old(dragging).value.isControl ==> var t := old(dragging).value;
        parts == Drag(old(parts), t.k, t.i, t.j, Point(mx, my))
    {
      if dragging.Some? {
        var t := dragging.value;
        PartFacts(parts, t.k);
        if t.isControl {
          if IsArm(t.k) && t.i == 0 {
            return;
          }
          var p := parts[t.k];
          var q := p.(live := Set2(p.live, t.i, t.j, Point(mx, my)));
          assert LayoutOf(q) == LayoutOf(p);
          ReplaceKeepsLayouts(parts, parts, t.k, q);
          parts := parts[t.k := q];
        } else {
          DragLayouts(parts, t.k, t.i, t.j, Point(mx, my));
          parts := DragHandle(parts, t.k, t.i, t.j, Point(mx, my));
        }
      }
    }

    /** mouseup and mouseleave: drop the grab and change nothing else. */
    method Release()
      modifies this
      ensures dragging == None
      ensures parts == old(parts) && clock == old(clock) && forward == old(forward) && isAnimating == old(isAnimating)
    {
      dragging := None;
    }

    /** One sample of `drawShape` through lattice k: `bilinearInterp` in its tagged cell, with the lattice's own dimensions. */
    function Draw(d: DrawnPoint, k: nat): Point
      reads this
      requires k < |parts| && CellFits(parts[k].live, Cell(d.gridX, d.gridY))
    {
      Render(d, parts[k].live, |parts[k].live|, |parts[k].live[0]|)
    }

    /**
      While part k sits on the blend at weight w (after any tick), every drawn
      sample of its shape sits on the straight segment between the positions
      the sample has when drawn through each keyframe.
    */
    lemma DrawOnBlend(d: DrawnPoint, k: nat, w: real)
      requires Valid() && k < |parts| && CellFits(parts[k].live, Cell(d.gridX, d.gridY)) && Settled(parts[k], w)
      ensures CellFits(parts[k].init, Cell(d.gridX, d.gridY)) && CellFits(parts[k].expand, Cell(d.gridX, d.gridY))
      ensures var p, rows, cols := parts[k], |parts[k].live|, |parts[k].live[0]|;
        Draw(d, k) == Lerp(Render(d, p.init, rows, cols), Render(d, p.expand, rows, cols), w)
    {
      var p := parts[k];
      OnBlendMeansBlended(p.live, p.init, p.expand, w);
      RenderBlended(d, p.live, p.init, p.expand, w, |p.live|, |p.live[0]|);
    }
  }
}
