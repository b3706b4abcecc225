/**
  Version 5 deforms a puppet made of four lattices (body, head, left arm,
  right arm).  Each lattice comes with six parallel arrays: the live control
  points, their two keyframes (`init`, `expand`), the user-point handles and
  the handles' two keyframes.  A handle can list dependent lattices
  (`indicesOfDependentGrid`); moving it translates those lattices wholesale.
  This module holds the pure side of that: one lattice with its six arrays
  as a `Part`, what a handle move does to the puppet, the tick that drives
  every handle, and the 180-degree flip of `makeUpsideDown`.
*/
module Puppet {
  import opened Geometry
  import opened Deformation
  import opened Keyframe

  /**
    One lattice k of the puppet: `grids[k]`, `initGrids[k]`, `expandGrids[k]`,
    the positions in `userGrids[k]`, `userInitGrids[k]`, `userExpandGrids[k]`,
    and, beside each handle, its `indicesOfDependentGrid`.
  */
  datatype Part = Part(live: Grid, init: Grid, expand: Grid,
                       handles: Grid, handleInit: Grid, handleExpand: Grid,
                       links: seq<seq<seq<int>>>)

  /** What the puppet's operations never change: the row lengths of the six arrays and the links. */
  datatype Layout = Layout(live: seq<nat>, init: seq<nat>, expand: seq<nat>,
                           handles: seq<nat>, handleInit: seq<nat>, handleExpand: seq<nat>,
                           links: seq<seq<seq<int>>>)

  function LayoutOf(p: Part): Layout
  {
    Layout(Shape(p.live), Shape(p.init), Shape(p.expand), Shape(p.handles), Shape(p.handleInit), Shape(p.handleExpand), p.links)
  }

  /** A part as `setControlPoints` lays it out: rows-by-cols lattices and (rows−1)-by-(cols−1) handles, rows, cols ≥ 2. */
  predicate Shaped(p: Part)
  {
    |p.live| >= 2 && |p.live[0]| >= 2 &&
    var rows, cols := |p.live|, |p.live[0]|;
    IsRect(p.live, rows, cols) && IsRect(p.init, rows, cols) && IsRect(p.expand, rows, cols) &&
    IsRect(p.handles, rows - 1, cols - 1) && IsRect(p.handleInit, rows - 1, cols - 1) &&
    IsRect(p.handleExpand, rows - 1, cols - 1) && IsRect(p.links, rows - 1, cols - 1)
  }

  /** Every dependent lattice a handle lists is one of the n lattices. */
  predicate LinksIn(links: seq<seq<seq<int>>>, n: int)
  {
    forall i, j, d :: 0 <= i < |links| && 0 <= j < |links[i]| && 0 <= d < |links[i][j]| ==> 0 <= links[i][j][d] < n
  }

  /** Every part is laid out and every link names a part. */
  predicate Sound(parts: seq<Part>)
  {
    forall k :: 0 <= k < |parts| ==> Shaped(parts[k]) && LinksIn(parts[k].links, |parts|)
  }

  /** r has the parts of `parts`, each with the same layout. */
  predicate SameLayouts(parts: seq<Part>, r: seq<Part>)
  {
    |r| == |parts| && forall k :: 0 <= k < |parts| ==> LayoutOf(r[k]) == LayoutOf(parts[k])
  }

  lemma ShapedByLayout(p: Part, q: Part)
    requires Shaped(p) && LayoutOf(q) == LayoutOf(p)
    ensures Shaped(q)
  {
    assert Shape(q.live) == Shape(p.live);
    assert |q.live[0]| == Shape(q.live)[0];
  }

  /** Operations that keep every layout keep the puppet sound. */
  lemma SoundByLayouts(parts: seq<Part>, r: seq<Part>)
    requires Sound(parts) && SameLayouts(parts, r)
    ensures Sound(r)
  {
    forall k | 0 <= k < |r|
      ensures Shaped(r[k]) && LinksIn(r[k].links, |r|)
    {
      ShapedByLayout(parts[k], r[k]);
    }
  }

  /** The facts about part k that index computations need. */
  lemma PartFacts(parts: seq<Part>, k: int)
    requires Sound(parts) && 0 <= k < |parts|
    ensures Shaped(parts[k]) && LinksIn(parts[k].links, |parts|)
  {
  }

  /** A dependent lattice being dragged along: all six arrays move by (dx, dy). */
  function Translated(p: Part, dx: real, dy: real): Part
  {
    Part(TranslateGrid(p.live, dx, dy), TranslateGrid(p.init, dx, dy), TranslateGrid(p.expand, dx, dy),
         TranslateGrid(p.handles, dx, dy), TranslateGrid(p.handleInit, dx, dy), TranslateGrid(p.handleExpand, dx, dy),
         p.links)
  }

  lemma TranslatedLayout(p: Part, dx: real, dy: real)
    ensures LayoutOf(Translated(p, dx, dy)) == LayoutOf(p)
  {
  }

  lemma TranslatedTwice(p: Part, dx1: real, dy1: real, dx2: real, dy2: real)
    ensures Translated(Translated(p, dx1, dy1), dx2, dy2) == Translated(p, dx1 + dx2, dy1 + dy2)
  {
    TranslateGridTwice(p.live, dx1, dy1, dx2, dy2);
    TranslateGridTwice(p.init, dx1, dy1, dx2, dy2);
    TranslateGridTwice(p.expand, dx1, dy1, dx2, dy2);
    TranslateGridTwice(p.handles, dx1, dy1, dx2, dy2);
    TranslateGridTwice(p.handleInit, dx1, dy1, dx2, dy2);
    TranslateGridTwice(p.handleExpand, dx1, dy1, dx2, dy2);
  }

  lemma TranslatedZero(p: Part)
    ensures Translated(p, 0.0, 0.0) == p
  {
    TranslateGridZero(p.live);
    TranslateGridZero(p.init);
    TranslateGridZero(p.expand);
    TranslateGridZero(p.handles);
    TranslateGridZero(p.handleInit);
    TranslateGridZero(p.handleExpand);
  }

  /** Every listed lattice is one of the parts. */
  predicate DepsIn(deps: seq<int>, n: int)
  {
    forall d :: 0 <= d < |deps| ==> 0 <= deps[d] < n
  }

  /**
    The dependent-lattice loop of `changeControlWithUser`: the lattices
    `deps[0]`, …, `deps[n−1]` are translated in turn.  Their own links are not
    followed.
  */
  function Carry(parts: seq<Part>, deps: seq<int>, n: nat, dx: real, dy: real): (r: seq<Part>)
    requires n <= |deps| && DepsIn(deps, |parts|)
    ensures |r| == |parts|
  {
    if n == 0 then parts
    else
      var prev := Carry(parts, deps, n - 1, dx, dy);
      prev[deps[n - 1] := Translated(prev[deps[n - 1]], dx, dy)]
  }

  /** Carrying lattices along changes no layout. */
  lemma {:induction false} CarryLayouts(parts: seq<Part>, deps: seq<int>, n: nat, dx: real, dy: real)
    requires n <= |deps| && DepsIn(deps, |parts|)
    ensures SameLayouts(parts, Carry(parts, deps, n, dx, dy))
  {
    if n > 0 {
      CarryLayouts(parts, deps, n - 1, dx, dy);
      var prev := Carry(parts, deps, n - 1, dx, dy);
      TranslatedLayout(prev[deps[n - 1]], dx, dy);
    }
  }

  /** How many of the first n listed lattices are lattice m. */
  function Times(deps: seq<int>, n: nat, m: int): nat
    requires n <= |deps|
  {
    if n == 0 then 0
    else Times(deps, n - 1, m) + if deps[n - 1] == m then 1 else 0
  }

  /** `Times` counts occurrences: it is the multiplicity of m among the first n entries. */
  lemma {:induction false} TimesCounts(deps: seq<int>, n: nat, m: int)
    requires n <= |deps|
    ensures Times(deps, n, m) == multiset(deps[..n])[m]
  {
    if n > 0 {
      TimesCounts(deps, n - 1, m);
      assert deps[..n] == deps[..n - 1] + [deps[n - 1]];
    }
  }

  /** The offset of a lattice moved c times by d, one move at a time. */
  function Scaled(c: nat, d: real): real
  {
    if c == 0 then 0.0 else Scaled(c - 1, d) + d
  }

  /** c moves by d add up to c·d. */
  lemma {:induction false} ScaledIsProduct(c: nat, d: real)
    ensures Scaled(c, d) == c as real * d
  {
    if c > 0 {
      ScaledIsProduct(c - 1, d);
      assert (c - 1) as real * d + d == c as real * d;
    }
  }

  /**
    Exactly what the loop does: a lattice listed c times moves by c·(dx, dy),
    so a lattice listed once moves by (dx, dy) and an unlisted one stays put.
    Propagation is one level only: the dependents' own links play no part.
  */
  lemma {:induction false} CarryEffect(parts: seq<Part>, deps: seq<int>, n: nat, dx: real, dy: real, m: int)
    requires n <= |deps| && DepsIn(deps, |parts|) && 0 <= m < |parts|
    ensures Carry(parts, deps, n, dx, dy)[m] == Translated(parts[m], Scaled(Times(deps, n, m), dx), Scaled(Times(deps, n, m), dy))
  {
    if n == 0 {
      TranslatedZero(parts[m]);
    } else {
      CarryEffect(parts, deps, n - 1, dx, dy, m);
      var c := Times(deps, n - 1, m);
      if m == deps[n - 1] {
        TranslatedTwice(parts[m], Scaled(c, dx), Scaled(c, dy), dx, dy);
      }
    }
  }

  /**
    What `changeControlWithUser` does to the handle's own lattice: the handle
    moves to `to`, and the corners of its cell move by the handle's offset in
    the live array and in both keyframes.
  */
  function Moved(p: Part, i: int, j: int, to: Point, isElbow: bool): Part
    requires Shaped(p) && 0 <= i < |p.handles| && 0 <= j < |p.handles[i]|
  {
    var d := Offset(p.handles[i][j], to);
    p.(live := ShiftCorners(p.live, isElbow, i, j, d.x, d.y),
       init := ShiftCorners(p.init, isElbow, i, j, d.x, d.y),
       expand := ShiftCorners(p.expand, isElbow, i, j, d.x, d.y),
       handles := Set2(p.handles, i, j, to))
  }

  /**
    Point by point: the handle lands on `to` and no other handle moves; the
    corners of its cell (only the lower two for an arm, whose top row is the
    pinned elbow) move by the handle's offset in the live array and in both
    keyframes, and no other control point of the lattice moves; the handles'
    keyframes and the links stay.
  */
  lemma MovedEffect(p: Part, i: int, j: int, to: Point, isElbow: bool)
    requires Shaped(p) && 0 <= i < |p.handles| && 0 <= j < |p.handles[i]|
    ensures var r := Moved(p, i, j, to, isElbow);
      r.handles[i][j] == to &&
      (forall a, b :: 0 <= a < |p.handles| && 0 <= b < |p.handles[a]| && (a != i || b != j) ==> r.handles[a][b] == p.handles[a][b]) &&
      r.handleInit == p.handleInit && r.handleExpand == p.handleExpand && r.links == p.links
    ensures var r, d := Moved(p, i, j, to, isElbow), Offset(p.handles[i][j], to);
      forall a, b :: 0 <= a < |p.live| && 0 <= b < |p.live[a]| ==>
        r.live[a][b] == (if IsCorner(isElbow, i, j, a, b) then p.live[a][b].Translate(d.x, d.y) else p.live[a][b]) &&
        r.init[a][b] == (if IsCorner(isElbow, i, j, a, b) then p.init[a][b].Translate(d.x, d.y) else p.init[a][b]) &&
        r.expand[a][b] == (if IsCorner(isElbow, i, j, a, b) then p.expand[a][b].Translate(d.x, d.y) else p.expand[a][b])
  {
    var d := Offset(p.handles[i][j], to);
    ShiftCornersEffect(p.live, isElbow, i, j, d.x, d.y);
    ShiftCornersEffect(p.init, isElbow, i, j, d.x, d.y);
    ShiftCornersEffect(p.expand, isElbow, i, j, d.x, d.y);
  }

  lemma MovedLayout(p: Part, i: int, j: int, to: Point, isElbow: bool)
    requires Shaped(p) && 0 <= i < |p.handles| && 0 <= j < |p.handles[i]|
    ensures LayoutOf(Moved(p, i, j, to, isElbow)) == LayoutOf(p)
  {
  }

  /** The arm lattices (2 and 3) have their top row pinned. */
  predicate IsArm(k: int)
  {
    k == 2 || k == 3
  }

  /**
    `changeControlWithUser(to.x, to.y, old.x, old.y, isElbow, k, i, j, deps)`
    with `old` the handle's current position: move the handle and its
    corners, then carry the listed lattices by the same offset.
  */
  function ChangeControl(parts: seq<Part>, k: int, i: int, j: int, to: Point, isElbow: bool, deps: seq<int>): (r: seq<Part>)
    requires Sound(parts) && 0 <= k < |parts| && 0 <= i < |parts[k].handles| && 0 <= j < |parts[k].handles[i]|
    requires DepsIn(deps, |parts|)
    ensures |r| == |parts|
  {
    var d := Offset(parts[k].handles[i][j], to);
    Carry(parts[k := Moved(parts[k], i, j, to, isElbow)], deps, |deps|, d.x, d.y)
  }

  /** A handle move changes no layout, so it keeps the puppet sound. */
  lemma ChangeControlLayouts(parts: seq<Part>, k: int, i: int, j: int, to: Point, isElbow: bool, deps: seq<int>)
    requires Sound(parts) && 0 <= k < |parts| && 0 <= i < |parts[k].handles| && 0 <= j < |parts[k].handles[i]|
    requires DepsIn(deps, |parts|)
    ensures SameLayouts(parts, ChangeControl(parts, k, i, j, to, isElbow, deps))
    ensures Sound(ChangeControl(parts, k, i, j, to, isElbow, deps))
  {
    var d := Offset(parts[k].handles[i][j], to);
    MovedLayout(parts[k], i, j, to, isElbow);
    CarryLayouts(parts[k := Moved(parts[k], i, j, to, isElbow)], deps, |deps|, d.x, d.y);
    SoundByLayouts(parts, ChangeControl(parts, k, i, j, to, isElbow, deps));
  }

  /** `CarryEffect` after part k has been replaced by q. */
  lemma CarryAfterUpdate(parts: seq<Part>, k: int, q: Part, deps: seq<int>, dx: real, dy: real)
    requires DepsIn(deps, |parts|) && 0 <= k < |parts|
    ensures forall m :: 0 <= m < |parts| && m != k ==>
      Carry(parts[k := q], deps, |deps|, dx, dy)[m] == Translated(parts[m], Scaled(Times(deps, |deps|, m), dx), Scaled(Times(deps, |deps|, m), dy))
    ensures Carry(parts[k := q], deps, |deps|, dx, dy)[k] == Translated(q, Scaled(Times(deps, |deps|, k), dx), Scaled(Times(deps, |deps|, k), dy))
  {
    forall m | 0 <= m < |parts|
      ensures Carry(parts[k := q], deps, |deps|, dx, dy)[m] == Translated(parts[k := q][m], Scaled(Times(deps, |deps|, m), dx), Scaled(Times(deps, |deps|, m), dy))
    {
      CarryEffect(parts[k := q], deps, |deps|, dx, dy, m);
    }
  }

  lemma ChangeControlUnfold(parts: seq<Part>, k: int, i: int, j: int, to: Point, isElbow: bool, deps: seq<int>)
    requires Sound(parts) && 0 <= k < |parts| && 0 <= i < |parts[k].handles| && 0 <= j < |parts[k].handles[i]|
    requires DepsIn(deps, |parts|)
    ensures var d := Offset(parts[k].handles[i][j], to);
      ChangeControl(parts, k, i, j, to, isElbow, deps) ==
      Carry(parts[k := Moved(parts[k], i, j, to, isElbow)], deps, |deps|, d.x, d.y)
  {
  }

  /**
    The whole effect of a handle move: the handle's lattice is moved as
    `Moved` says and, like every other lattice, then translated once per
    time it is listed; a lattice that is neither the handle's nor listed is
    unchanged.
  */
  lemma ChangeControlEffect(parts: seq<Part>, k: int, i: int, j: int, to: Point, isElbow: bool, deps: seq<int>)
    requires Sound(parts) && 0 <= k < |parts| && 0 <= i < |parts[k].handles| && 0 <= j < |parts[k].handles[i]|
    requires DepsIn(deps, |parts|)
    ensures var d := Offset(parts[k].handles[i][j], to);
      var r := ChangeControl(parts, k, i, j, to, isElbow, deps);
      forall m :: 0 <= m < |parts| && m != k ==>
        r[m] == Translated(parts[m], Scaled(Times(deps, |deps|, m), d.x), Scaled(Times(deps, |deps|, m), d.y))
    ensures var d := Offset(parts[k].handles[i][j], to);
      ChangeControl(parts, k, i, j, to, isElbow, deps)[k] ==
      Translated(Moved(parts[k], i, j, to, isElbow), Scaled(Times(deps, |deps|, k), d.x), Scaled(Times(deps, |deps|, k), d.y))
  {
    var d := Offset(parts[k].handles[i][j], to);
    ChangeControlUnfold(parts, k, i, j, to, isElbow, deps);
    CarryAfterUpdate(parts, k, Moved(parts[k], i, j, to, isElbow), deps, d.x, d.y);
  }

  /** One of the six `+=` double loops over a dependent lattice: every point moves by (dx, dy). */
  method TranslateInPlace(g: Grid, dx: real, dy: real) returns (r: Grid)
    ensures r == TranslateGrid(g, dx, dy)
  {
    r := g;
    for i := 0 to |g|
      invariant |r| == |g| && forall a :: i <= a < |g| ==> r[a] == g[a]
      invariant forall a :: 0 <= a < i ==> r[a] == TranslateGrid(g, dx, dy)[a]
    {
      for j := 0 to |g[i]|
        invariant |r| == |g| && |r[i]| == |g[i]| && forall a :: i < a < |g| ==> r[a] == g[a]
        invariant forall a :: 0 <= a < i ==> r[a] == TranslateGrid(g, dx, dy)[a]
        invariant forall b :: 0 <= b < j ==> r[i][b] == g[i][b].Translate(dx, dy)
        invariant forall b :: j <= b < |g[i]| ==> r[i][b] == g[i][b]
      {
        r := r[i := r[i][j := r[i][j].Translate(dx, dy)]];
      }
      assert r[i] == TranslateGrid(g, dx, dy)[i];
    }
  }

  /** The body of the dependent-lattice loop for one listed lattice: its six arrays, one double loop each. */
  method TranslatePart(p: Part, dx: real, dy: real) returns (r: Part)
    ensures r == Translated(p, dx, dy)
  {
    var handles := TranslateInPlace(p.handles, dx, dy);
    var live := TranslateInPlace(p.live, dx, dy);
    var init := TranslateInPlace(p.init, dx, dy);
    var expand := TranslateInPlace(p.expand, dx, dy);
    var handleInit := TranslateInPlace(p.handleInit, dx, dy);
    var handleExpand := TranslateInPlace(p.handleExpand, dx, dy);
    r := Part(live, init, expand, handles, handleInit, handleExpand, p.links);
  }

  /**
    `changeControlWithUser` as it runs: the offset from the handle's current
    position, the handle and corner updates, then the loop over the listed
    lattices; the result is the function above.
  */
  method ChangeControlWithUser(parts: seq<Part>, k: int, i: int, j: int, to: Point, isElbow: bool, deps: seq<int>) returns (r: seq<Part>)
    requires Sound(parts) && 0 <= k < |parts| && 0 <= i < |parts[k].handles| && 0 <= j < |parts[k].handles[i]|
    requires DepsIn(deps, |parts|)
    ensures r == ChangeControl(parts, k, i, j, to, isElbow, deps)
  {
    var d := Offset(parts[k].handles[i][j], to);
    var start := parts[k := Moved(parts[k], i, j, to, isElbow)];
    r := start;
    for n := 0 to |deps|
      invariant r == Carry(start, deps, n, d.x, d.y)
    {
      var q := TranslatePart(r[deps[n]], d.x, d.y);
      r := r[deps[n] := q];
    }
  }

  // ---------------------------------------------------------------------------
  // Settled parts: every point sits on the blend of its two keyframes.

  /** Row-major order of the handles: (a, b) comes before (i, j). */
  predicate Before(a: int, b: int, i: int, j: int)
  {
    a < i || (a == i && b < j)
  }

  /**
    `g` has the shape of both keyframes, and every point of `g` before (i0, j0)
    is the blend of its two keyframe positions at weight w.
  */
  predicate OnBlendBefore(g: Grid, from: Grid, to: Grid, w: real, i0: int, j0: int)
  {
    SameShape(from, g) && SameShape(to, g) &&
    forall a, b :: 0 <= a < |g| && 0 <= b < |g[a]| && Before(a, b, i0, j0) ==> g[a][b] == Lerp(from[a][b], to[a][b], w)
  }

  /** Every point of `g` is on the blend. */
  predicate OnBlend(g: Grid, from: Grid, to: Grid, w: real)
  {
    OnBlendBefore(g, from, to, w, |g|, 0)
  }

  /** A grid on the blend is what the tick's blend loop would write into it. */
  lemma OnBlendMeansBlended(g: Grid, from: Grid, to: Grid, w: real)
    ensures OnBlend(g, from, to, w) <==> SameShape(from, g) && SameShape(to, g) && g == Blended(g, from, to, w)
  {
    if SameShape(from, g) && SameShape(to, g) && g == Blended(g, from, to, w) {
      forall a, b | 0 <= a < |g| && 0 <= b < |g[a]|
        ensures g[a][b] == Lerp(from[a][b], to[a][b], w)
      {
        assert Blended(g, from, to, w)[a][b] == Lerp(from[a][b], to[a][b], w);
      }
    }
    if OnBlend(g, from, to, w) {
      var r := Blended(g, from, to, w);
      assert |r| == |g|;
      forall a | 0 <= a < |g|
        ensures r[a] == g[a]
      {
        assert |r[a]| == |g[a]|;
        forall b | 0 <= b < |g[a]|
          ensures r[a][b] == g[a][b]
        {
        }
      }
    }
  }

  /** The part's live lattice is on the blend, and so are its handles before (i0, j0). */
  predicate SettledBefore(p: Part, w: real, i0: int, j0: int)
  {
    OnBlend(p.live, p.init, p.expand, w) && OnBlendBefore(p.handles, p.handleInit, p.handleExpand, w, i0, j0)
  }

  /** Lattice and handles both on the blend at weight w. */
  predicate Settled(p: Part, w: real)
  {
    OnBlend(p.live, p.init, p.expand, w) && OnBlend(p.handles, p.handleInit, p.handleExpand, w)
  }

  /** Translating a grid and both its keyframes keeps it on the blend. */
  lemma OnBlendTranslate(g: Grid, from: Grid, to: Grid, w: real, i0: int, j0: int, dx: real, dy: real)
    requires OnBlendBefore(g, from, to, w, i0, j0)
    ensures OnBlendBefore(TranslateGrid(g, dx, dy), TranslateGrid(from, dx, dy), TranslateGrid(to, dx, dy), w, i0, j0)
  {
    var g', from', to' := TranslateGrid(g, dx, dy), TranslateGrid(from, dx, dy), TranslateGrid(to, dx, dy);
    forall a, b | 0 <= a < |g'| && 0 <= b < |g'[a]| && Before(a, b, i0, j0)
      ensures g'[a][b] == Lerp(from'[a][b], to'[a][b], w)
    {
      LerpTranslate(from[a][b], to[a][b], w, dx, dy);
    }
  }

  /** Moving the same cell corners of a grid and of both its keyframes keeps it on the blend. */
  lemma OnBlendShift(g: Grid, from: Grid, to: Grid, w: real, i0: int, j0: int, isElbow: bool, i: int, j: int, dx: real, dy: real)
    requires OnBlendBefore(g, from, to, w, i0, j0) && CellFits(g, Cell(i, j))
    ensures CellFits(from, Cell(i, j)) && CellFits(to, Cell(i, j))
    ensures OnBlendBefore(ShiftCorners(g, isElbow, i, j, dx, dy), ShiftCorners(from, isElbow, i, j, dx, dy),
                          ShiftCorners(to, isElbow, i, j, dx, dy), w, i0, j0)
  {
    var g', from', to' := ShiftCorners(g, isElbow, i, j, dx, dy), ShiftCorners(from, isElbow, i, j, dx, dy), ShiftCorners(to, isElbow, i, j, dx, dy);
    ShiftCornersEffect(g, isElbow, i, j, dx, dy);
    ShiftCornersEffect(from, isElbow, i, j, dx, dy);
    ShiftCornersEffect(to, isElbow, i, j, dx, dy);
    forall a, b | 0 <= a < |g'| && 0 <= b < |g'[a]| && Before(a, b, i0, j0)
      ensures g'[a][b] == Lerp(from'[a][b], to'[a][b], w)
    {
      LerpTranslate(from[a][b], to[a][b], w, dx, dy);
    }
  }

  /** Putting point (i, j) on the blend extends the settled prefix by one. */
  lemma OnBlendSet(g: Grid, from: Grid, to: Grid, w: real, i: int, j: int, p: Point)
    requires OnBlendBefore(g, from, to, w, i, j) && 0 <= i < |g| && 0 <= j < |g[i]|
    requires p == Lerp(from[i][j], to[i][j], w)
    ensures OnBlendBefore(Set2(g, i, j, p), from, to, w, i, j + 1)
  {
  }

  /** A finished row: everything before (i, end of row i) is everything before (i + 1, 0). */
  lemma OnBlendNextRow(g: Grid, from: Grid, to: Grid, w: real, i: int)
    requires 0 <= i < |g| && OnBlendBefore(g, from, to, w, i, |g[i]|)
    ensures OnBlendBefore(g, from, to, w, i + 1, 0)
  {
  }

  /** Dragging a whole lattice along keeps whatever part of it was settled. */
  lemma TranslatedSettled(p: Part, w: real, i0: int, j0: int, dx: real, dy: real)
    requires SettledBefore(p, w, i0, j0)
    ensures SettledBefore(Translated(p, dx, dy), w, i0, j0)
  {
    OnBlendTranslate(p.live, p.init, p.expand, w, |p.live|, 0, dx, dy);
    OnBlendTranslate(p.handles, p.handleInit, p.handleExpand, w, i0, j0, dx, dy);
  }

  /**
    Moving handle (i, j) of a part settled up to it onto its own blend
    position leaves the part settled up to the next handle: the corners the
    handle drags move in the lattice and in both keyframes alike.
  */
  lemma MovedSettled(p: Part, w: real, i: int, j: int, isElbow: bool)
    requires Shaped(p) && 0 <= i < |p.handles| && 0 <= j < |p.handles[i]|
    requires SettledBefore(p, w, i, j)
    ensures SettledBefore(Moved(p, i, j, Lerp(p.handleInit[i][j], p.handleExpand[i][j], w), isElbow), w, i, j + 1)
  {
    var to := Lerp(p.handleInit[i][j], p.handleExpand[i][j], w);
    var d := Offset(p.handles[i][j], to);
    OnBlendShift(p.live, p.init, p.expand, w, |p.live|, 0, isElbow, i, j, d.x, d.y);
    OnBlendSet(p.handles, p.handleInit, p.handleExpand, w, i, j, to);
  }

  /** Every lattice the move carries along stays as settled as it was. */
  lemma CarrySettled(parts: seq<Part>, deps: seq<int>, dx: real, dy: real, m: int, w: real, i0: int, j0: int)
    requires DepsIn(deps, |parts|) && 0 <= m < |parts| && SettledBefore(parts[m], w, i0, j0)
    ensures SettledBefore(Carry(parts, deps, |deps|, dx, dy)[m], w, i0, j0)
  {
    CarryEffect(parts, deps, |deps|, dx, dy, m);
    TranslatedSettled(parts[m], w, i0, j0, Scaled(Times(deps, |deps|, m), dx), Scaled(Times(deps, |deps|, m), dy));
  }

  lemma LinksOfHandle(parts: seq<Part>, k: int, i: int, j: int)
    requires Sound(parts) && 0 <= k < |parts| && 0 <= i < |parts[k].handles| && 0 <= j < |parts[k].handles[i]|
    ensures i < |parts[k].links| && j < |parts[k].links[i]| && DepsIn(parts[k].links[i][j], |parts|)
    ensures i < |parts[k].handleInit| && j < |parts[k].handleInit[i]| && i < |parts[k].handleExpand| && j < |parts[k].handleExpand[i]|
  {
  }

  /**
    One handle move of the tick, on a part settled up to that handle and
    aimed at the handle's blend position: the part becomes settled up to the
    next handle, and every other part that was settled stays settled.
  */
  lemma ChangeControlSettled(parts: seq<Part>, k: int, i: int, j: int, w: real, isElbow: bool)
    requires Sound(parts) && 0 <= k < |parts| && 0 <= i < |parts[k].handles| && 0 <= j < |parts[k].handles[i]|
    requires SettledBefore(parts[k], w, i, j)
    ensures var p := parts[k];
      var r := ChangeControl(parts, k, i, j, Lerp(p.handleInit[i][j], p.handleExpand[i][j], w), isElbow, p.links[i][j]);
      SettledBefore(r[k], w, i, j + 1) &&
      forall m :: 0 <= m < |parts| && m != k && Settled(parts[m], w) ==> Settled(r[m], w)
  {
    LinksOfHandle(parts, k, i, j);
    var p := parts[k];
    var to := Lerp(p.handleInit[i][j], p.handleExpand[i][j], w);
    var d := Offset(p.handles[i][j], to);
    var deps := p.links[i][j];
    var q := Moved(p, i, j, to, isElbow);
    ChangeControlUnfold(parts, k, i, j, to, isElbow, deps);
    CarryAfterUpdate(parts, k, q, deps, d.x, d.y);
    MovedSettled(p, w, i, j, isElbow);
    TranslatedSettled(q, w, i, j + 1, Scaled(Times(deps, |deps|, k), d.x), Scaled(Times(deps, |deps|, k), d.y));
    forall m | 0 <= m < |parts| && m != k && Settled(parts[m], w)
      ensures Settled(ChangeControl(parts, k, i, j, to, isElbow, deps)[m], w)
    {
      TranslatedSettled(parts[m], w, |parts[m].handles|, 0, Scaled(Times(deps, |deps|, m), d.x), Scaled(Times(deps, |deps|, m), d.y));
    }
  }

  // ---------------------------------------------------------------------------
  // The tick: `expandPos` (forward) and `returnToInitPos` (backward) with eased
  // weight e, for one timestamp that does not end the phase.

  /** The blend weight, measured from `init` towards `expand`, that a tick at eased e reaches. */
  function Weight(forward: bool, e: real): (w: real)
    ensures forward ==> w == e
    ensures !forward ==> w + e == 1.0
  {
    if forward then e else 1.0 - e
  }

  /** Where the tick sends handle (i, j): `newX`, `newY` of the user loop. */
  function Target(p: Part, i: int, j: int, forward: bool, e: real): (t: Point)
    requires 0 <= i < |p.handleInit| && 0 <= j < |p.handleInit[i]| && 0 <= i < |p.handleExpand| && 0 <= j < |p.handleExpand[i]|
    ensures t == Lerp(p.handleInit[i][j], p.handleExpand[i][j], Weight(forward, e))
  {
    LerpSwap(p.handleInit[i][j], p.handleExpand[i][j], e);
    if forward then Lerp(p.handleInit[i][j], p.handleExpand[i][j], e) else Lerp(p.handleExpand[i][j], p.handleInit[i][j], e)
  }

  /** The lattice's rows and columns, which fix every array of a laid-out part. */
  function Size(p: Part): (nat, nat)
  {
    (|p.live|, if |p.live| == 0 then 0 else |p.live[0]|)
  }

  /** r has the parts of `parts`, each with the same size. */
  predicate SameSizes(parts: seq<Part>, r: seq<Part>)
  {
    |r| == |parts| && forall k {:trigger Size(r[k])} :: 0 <= k < |parts| ==> Size(r[k]) == Size(parts[k])
  }

  lemma LayoutSize(p: Part, q: Part)
    requires LayoutOf(q) == LayoutOf(p)
    ensures Size(q) == Size(p)
  {
    assert Shape(q.live) == Shape(p.live);
    if |p.live| > 0 {
      assert Shape(q.live)[0] == Shape(p.live)[0];
    }
  }

  lemma SizeHandles(p: Part, q: Part)
    requires Shaped(p) && Shaped(q) && Size(q) == Size(p)
    ensures |q.handles| == |p.handles| && forall i :: 0 <= i < |p.handles| ==> |q.handles[i]| == |p.handles[i]|
  {
  }

  lemma ChangeControlSizes(parts: seq<Part>, r: seq<Part>)
    requires SameLayouts(parts, r)
    ensures SameSizes(parts, r)
  {
    forall k | 0 <= k < |parts|
      ensures Size(r[k]) == Size(parts[k])
    {
      LayoutSize(parts[k], r[k]);
    }
  }

  /** One call of `changeControlWithUser` in the user loop of part k. */
  function Drive(parts: seq<Part>, k: int, i: int, j: int, forward: bool, e: real): seq<Part>
    requires Sound(parts) && 0 <= k < |parts| && 0 <= i < |parts[k].handles| && 0 <= j < |parts[k].handles[i]|
  {
    LinksOfHandle(parts, k, i, j);
    var p := parts[k];
    ChangeControl(parts, k, i, j, Target(p, i, j, forward, e), IsArm(k), p.links[i][j])
  }

  /** A user-loop step changes no layout, links included, so the puppet stays sound. */
  lemma DriveLayouts(parts: seq<Part>, k: int, i: int, j: int, forward: bool, e: real)
    requires Sound(parts) && 0 <= k < |parts| && 0 <= i < |parts[k].handles| && 0 <= j < |parts[k].handles[i]|
    ensures SameLayouts(parts, Drive(parts, k, i, j, forward, e)) && Sound(Drive(parts, k, i, j, forward, e))
  {
    LinksOfHandle(parts, k, i, j);
    var p := parts[k];
    ChangeControlLayouts(parts, k, i, j, Target(p, i, j, forward, e), IsArm(k), p.links[i][j]);
  }


  /** The control loop of the tick for one part: the live lattice is rewritten as the blend of the keyframes. */
  function BlendPart(p: Part, forward: bool, e: real): (r: Part)
    requires Shaped(p)
    ensures LayoutOf(r) == LayoutOf(p)
    ensures OnBlend(r.live, r.init, r.expand, Weight(forward, e))
    ensures r.(live := p.live) == p
  {
    var live := if forward then Blended(p.live, p.init, p.expand, e) else Blended(p.live, p.expand, p.init, e);
    assert OnBlend(live, p.init, p.expand, Weight(forward, e)) by {
      forall a, b | 0 <= a < |live| && 0 <= b < |live[a]|
        ensures live[a][b] == Lerp(p.init[a][b], p.expand[a][b], Weight(forward, e))
      {
        LerpSwap(p.init[a][b], p.expand[a][b], e);
      }
    }
    p.(live := live)
  }

  /** Parts 0, …, k−1 are settled at weight w. */
  predicate SettledUpTo(parts: seq<Part>, w: real, k: int)
  {
    forall m {:trigger Settled(parts[m], w)} :: 0 <= m < k && m < |parts| ==> Settled(parts[m], w)
  }

  /** One handle of the tick: `ChangeControlSettled` at the tick's own target. */
  lemma DriveSettles(parts: seq<Part>, k: int, i: int, j: int, forward: bool, e: real, w: real)
    requires Sound(parts) && 0 <= k < |parts| && 0 <= i < |parts[k].handles| && 0 <= j < |parts[k].handles[i]|
    requires w == Weight(forward, e) && SettledUpTo(parts, w, k) && SettledBefore(parts[k], w, i, j)
    ensures SettledUpTo(Drive(parts, k, i, j, forward, e), w, k)
    ensures SettledBefore(Drive(parts, k, i, j, forward, e)[k], w, i, j + 1)
  {
    LinksOfHandle(parts, k, i, j);
    ChangeControlSettled(parts, k, i, j, w, IsArm(k));
  }

  lemma SameHandleRows(p: Part, q: Part)
    requires LayoutOf(q) == LayoutOf(p)
    ensures |q.handles| == |p.handles| && forall i :: 0 <= i < |p.handles| ==> |q.handles[i]| == |p.handles[i]|
  {
    assert Shape(q.handles) == Shape(p.handles);
  }

  lemma SameLayoutsTrans(a: seq<Part>, b: seq<Part>, c: seq<Part>)
    requires SameLayouts(a, b) && SameLayouts(b, c)
    ensures SameLayouts(a, c)
  {
  }

  // The tick as a tree of steps in the order of the source's three nested
  // loops: the whole tick is a block of part turns, part k's turn is its
  // control loop (`BlendStep(k)`) followed by a block per row of handles,
  // and a row is a block of handle steps (`HandleStep(k, i, j)`).  A step
  // applies only where its own precondition holds, which it always does on
  // a sound puppet (the methods below show it); the guard just keeps
  // `Apply` total.

  /** One step of the tick, or a block of steps taken in turn. */
  datatype TickStep = BlendStep(k: int) | HandleStep(k: int, i: int, j: int) | Block(steps: seq<TickStep>)

  /** The effect of a step: `BlendPart` on part k, `Drive` on handle (i, j) of part k, or the block's steps in turn. */
  function Apply(parts: seq<Part>, s: TickStep, forward: bool, e: real): seq<Part>
    decreases s
  {
    match s
    case BlendStep(k) =>
      if 0 <= k < |parts| && Shaped(parts[k]) then parts[k := BlendPart(parts[k], forward, e)] else parts
    case HandleStep(k, i, j) =>
      if Sound(parts) && 0 <= k < |parts| && 0 <= i < |parts[k].handles| && 0 <= j < |parts[k].handles[i]|
      then Drive(parts, k, i, j, forward, e) else parts
    case Block(steps) => Run(parts, steps, |steps|, forward, e)
  }

  /** The first n of the steps applied in turn. */
  function Run(parts: seq<Part>, steps: seq<TickStep>, n: nat, forward: bool, e: real): seq<Part>
    requires n <= |steps|
    decreases steps, n
  {
    if n == 0 then parts else Apply(Run(parts, steps, n - 1, forward, e), steps[n - 1], forward, e)
  }

  /** The user loop over row i of part k: handles (i, 0), …, (i, cols − 1). */
  function RowSteps(k: int, i: int, cols: nat): seq<TickStep>
  {
    seq(cols, j => HandleStep(k, i, j))
  }

  /** The user loop of part k: rows 0, …, rows − 1 of handles, each row a block. */
  function UserSteps(k: int, rows: nat, cols: nat): seq<TickStep>
  {
    seq(rows, i => Block(RowSteps(k, i, cols)))
  }

  /** Part k's turn: the control loop, then the user loop. */
  function TurnSteps(k: int, rows: nat, cols: nat): seq<TickStep>
  {
    [BlendStep(k), Block(UserSteps(k, rows, cols))]
  }

  /** The row and column counts of a part's handles. */
  function HandleDims(p: Part): (nat, nat)
  {
    (|p.handles|, if |p.handles| == 0 then 0 else |p.handles[0]|)
  }

  /** Part k's turn, sized by the handles of p. */
  function Turn(k: int, p: Part): TickStep
  {
    Block(TurnSteps(k, HandleDims(p).0, HandleDims(p).1))
  }

  /** The outer loop of the tick: the turns of parts 0, …, |parts| − 1. */
  function TickOrder(parts: seq<Part>): seq<TickStep>
  {
    seq(|parts|, k requires 0 <= k < |parts| => Turn(k, parts[k]))
  }

  /** One `changeControlWithUser` call of the user loop: handle (i, j) of part k goes to its blend. */
  method DriveHandle(parts: seq<Part>, k: int, i: int, j: int, forward: bool, e: real) returns (r: seq<Part>)
    requires Sound(parts) && 0 <= k < |parts| && 0 <= i < |parts[k].handles| && 0 <= j < |parts[k].handles[i]|
    requires SettledUpTo(parts, Weight(forward, e), k) && SettledBefore(parts[k], Weight(forward, e), i, j)
    ensures r == Apply(parts, HandleStep(k, i, j), forward, e)
    ensures SameLayouts(parts, r)
    ensures SettledUpTo(r, Weight(forward, e), k) && SettledBefore(r[k], Weight(forward, e), i, j + 1)
  {
    DriveSettles(parts, k, i, j, forward, e, Weight(forward, e));
    DriveLayouts(parts, k, i, j, forward, e);
    LinksOfHandle(parts, k, i, j);
    r := ChangeControlWithUser(parts, k, i, j, Target(parts[k], i, j, forward, e), IsArm(k), parts[k].links[i][j]);
  }

  /** The user loop over row i of part k: afterwards the handles of rows 0, …, i sit on their blend. */
  method DriveHandleRow(parts: seq<Part>, k: int, i: int, forward: bool, e: real) returns (r: seq<Part>)
    requires Sound(parts) && 0 <= k < |parts| && 0 <= i < |parts[k].handles|
    requires SettledUpTo(parts, Weight(forward, e), k) && SettledBefore(parts[k], Weight(forward, e), i, 0)
    ensures r == Apply(parts, Block(RowSteps(k, i, |parts[k].handles[i]|)), forward, e)
    ensures SameLayouts(parts, r) && Sound(r)
    ensures SettledUpTo(r, Weight(forward, e), k) && SettledBefore(r[k], Weight(forward, e), i + 1, 0)
  {
    var w := Weight(forward, e);
    ghost var row := RowSteps(k, i, |parts[k].handles[i]|);
    r := parts;
    for j := 0 to |parts[k].handles[i]|
      invariant r == Run(parts, row, j, forward, e) && SameLayouts(parts, r)
      invariant SettledUpTo(r, w, k) && SettledBefore(r[k], w, i, j)
    {
      SoundByLayouts(parts, r);
      SameHandleRows(parts[k], r[k]);
      var r' := DriveHandle(r, k, i, j, forward, e);
      SameLayoutsTrans(parts, r, r');
      r := r';
    }
    SameHandleRows(parts[k], r[k]);
    OnBlendNextRow(r[k].handles, r[k].handleInit, r[k].handleExpand, w, i);
    SoundByLayouts(parts, r);
  }

  /** The control loop of the tick for one part: `BlendInto` on its live lattice. */
  method BlendLive(p: Part, forward: bool, e: real) returns (r: Part)
    requires Shaped(p)
    ensures r == BlendPart(p, forward, e)
  {
    var from, to := if forward then p.init else p.expand, if forward then p.expand else p.init;
    var live := BlendInto(p.live, from, to, e);
    r := p.(live := live);
  }

  /** After the control loop of part k, the lattices before k are still settled and part k's lattice is on the blend. */
  lemma BlendedStart(parts: seq<Part>, k: int, forward: bool, e: real)
    requires Sound(parts) && 0 <= k < |parts| && SettledUpTo(parts, Weight(forward, e), k)
    ensures var b := parts[k := BlendPart(parts[k], forward, e)];
      b == Apply(parts, BlendStep(k), forward, e) &&
      SameLayouts(parts, b) && Sound(b) && HandleDims(b[k]) == HandleDims(parts[k]) &&
      SettledUpTo(b, Weight(forward, e), k) && SettledBefore(b[k], Weight(forward, e), 0, 0)
  {
    var b := parts[k := BlendPart(parts[k], forward, e)];
    SoundByLayouts(parts, b);
    SameHandleRows(parts[k], b[k]);
    assert SettledUpTo(b, Weight(forward, e), k) by {
      forall m | 0 <= m < k
        ensures Settled(b[m], Weight(forward, e))
      {
        assert b[m] == parts[m];
      }
    }
  }

  /** Row i's user loop, taken after rows 0, …, i − 1, is the user loop's next step. */
  lemma NextRow(parts: seq<Part>, k: int, i: int, r: seq<Part>, r': seq<Part>, forward: bool, e: real)
    requires Sound(parts) && 0 <= k < |parts| && 0 <= i < HandleDims(parts[k]).0
    requires r == Run(parts, UserSteps(k, HandleDims(parts[k]).0, HandleDims(parts[k]).1), i, forward, e)
    requires SameLayouts(parts, r)
    requires r' == Apply(r, Block(RowSteps(k, i, |r[k].handles[i]|)), forward, e) && SameLayouts(r, r')
    ensures r' == Run(parts, UserSteps(k, HandleDims(parts[k]).0, HandleDims(parts[k]).1), i + 1, forward, e)
    ensures SameLayouts(parts, r')
  {
    SameHandleRows(parts[k], r[k]);
    assert |r[k].handles[i]| == HandleDims(parts[k]).1;
  }

  /** Once every row of handles is on the blend, the part is settled, and so are parts 0, …, k. */
  lemma TurnSettled(parts: seq<Part>, k: int, w: real)
    requires 0 <= k < |parts| && SettledUpTo(parts, w, k) && SettledBefore(parts[k], w, |parts[k].handles|, 0)
    ensures SettledUpTo(parts, w, k + 1)
  {
    assert Settled(parts[k], w);
  }

  /** The user loop of part k: every row of handles in turn. */
  method DriveUserLoop(parts: seq<Part>, k: int, forward: bool, e: real) returns (r: seq<Part>)
    requires Sound(parts) && 0 <= k < |parts|
    requires SettledUpTo(parts, Weight(forward, e), k) && SettledBefore(parts[k], Weight(forward, e), 0, 0)
    ensures r == Apply(parts, Block(UserSteps(k, HandleDims(parts[k]).0, HandleDims(parts[k]).1)), forward, e)
    ensures SameLayouts(parts, r) && Sound(r) && SettledUpTo(r, Weight(forward, e), k + 1)
  {
    var w := Weight(forward, e);
    r := parts;
    for i := 0 to HandleDims(parts[k]).0
      invariant r == Run(parts, UserSteps(k, HandleDims(parts[k]).0, HandleDims(parts[k]).1), i, forward, e)
      invariant SameLayouts(parts, r)
      invariant SettledUpTo(r, w, k) && SettledBefore(r[k], w, i, 0)
    {
      SoundByLayouts(parts, r);
      SameHandleRows(parts[k], r[k]);
      var r' := DriveHandleRow(r, k, i, forward, e);
      NextRow(parts, k, i, r, r', forward, e);
      r := r';
    }
    SameHandleRows(parts[k], r[k]);
    TurnSettled(r, k, w);
    SoundByLayouts(parts, r);
  }

  /** A turn is its control loop followed by its user loop. */
  lemma TurnRun(parts: seq<Part>, k: int, rows: nat, cols: nat, forward: bool, e: real)
    ensures Apply(parts, Block(TurnSteps(k, rows, cols)), forward, e)
         == Apply(Apply(parts, BlendStep(k), forward, e), Block(UserSteps(k, rows, cols)), forward, e)
  {
    var t := TurnSteps(k, rows, cols);
    assert Run(parts, t, 1, forward, e) == Apply(parts, BlendStep(k), forward, e) by {
      assert Run(parts, t, 0, forward, e) == parts;
    }
  }

  /** Part k's turn in the tick: blend its lattice, then drive its handles row by row. */
  method TakeTurn(parts: seq<Part>, k: int, forward: bool, e: real) returns (r: seq<Part>)
    requires Sound(parts) && 0 <= k < |parts| && SettledUpTo(parts, Weight(forward, e), k)
    ensures r == Apply(parts, Turn(k, parts[k]), forward, e)
    ensures SameLayouts(parts, r) && Sound(r) && SettledUpTo(r, Weight(forward, e), k + 1)
  {
    var blended := BlendLive(parts[k], forward, e);
    BlendedStart(parts, k, forward, e);
    TurnRun(parts, k, HandleDims(parts[k]).0, HandleDims(parts[k]).1, forward, e);
    var start := parts[k := blended];
    r := DriveUserLoop(start, k, forward, e);
    SameLayoutsTrans(parts, start, r);
  }

  /** Part k's turn, taken after the turns of parts 0, …, k − 1, is the outer loop's next step. */
  lemma NextTurn(parts: seq<Part>, k: int, r: seq<Part>, r': seq<Part>, forward: bool, e: real)
    requires 0 <= k < |parts| && r == Run(parts, TickOrder(parts), k, forward, e) && SameLayouts(parts, r)
    requires r' == Apply(r, Turn(k, r[k]), forward, e) && SameLayouts(r, r')
    ensures r' == Run(parts, TickOrder(parts), k + 1, forward, e) && SameLayouts(parts, r')
  {
    SameHandleRows(parts[k], r[k]);
    assert HandleDims(r[k]) == HandleDims(parts[k]);
    assert TickOrder(parts)[k] == Turn(k, parts[k]);
  }

  /**
    `expandPos` (forward) and `returnToInitPos` (backward) with eased weight e:
    for each part in turn, its lattice is set to the blend of its keyframes,
    then each of its handles is driven to the blend of the handle keyframes,
    which moves the cell corners of the live lattice and of both keyframes
    and carries the dependent lattices along.  The result is the block
    `TickOrder` applied to the puppet; in it every lattice and every handle
    of every part sits on the blend of its keyframes, and the layouts, links
    included, are unchanged.
  */
  method Tick(parts: seq<Part>, forward: bool, e: real) returns (r: seq<Part>)
    requires Sound(parts)
    ensures r == Apply(parts, Block(TickOrder(parts)), forward, e)
    ensures SameLayouts(parts, r) && SameSizes(parts, r) && Sound(r)
    ensures forall m :: 0 <= m < |r| ==> Settled(r[m], Weight(forward, e))
  {
    r := parts;
    for k := 0 to |parts|
      invariant r == Run(parts, TickOrder(parts), k, forward, e) && SameLayouts(parts, r)
      invariant SettledUpTo(r, Weight(forward, e), k)
    {
      SoundByLayouts(parts, r);
      var r' := TakeTurn(r, k, forward, e);
      NextTurn(parts, k, r, r', forward, e);
      r := r';
    }
    SoundByLayouts(parts, r);
    ChangeControlSizes(parts, r);
  }

  // ---------------------------------------------------------------------------
  // Dragging a handle with the pointer.

  /** How many handles at the head of a row list dependent lattices: where the `break` of the keyframe loop stops. */
  function LinkedRun(row: seq<seq<int>>): (n: nat)
    ensures n <= |row|
    ensures forall b :: 0 <= b < n ==> |row[b]| > 0
    ensures n < |row| ==> |row[n]| == 0
  {
    if |row| == 0 || |row[0]| == 0 then 0 else 1 + LinkedRun(row[1..])
  }

  /** A handle keyframe grid after the keyframe loop of a drag: in every row, the linked run moves by (dx, dy). */
  function ShiftLinked(g: Grid, links: seq<seq<seq<int>>>, dx: real, dy: real): (r: Grid)
    requires SameShape(links, g)
  {
    seq(|g|, i requires 0 <= i < |g| =>
      seq(|g[i]|, j requires 0 <= j < |g[i]| => if j < LinkedRun(links[i]) then g[i][j].Translate(dx, dy) else g[i][j]))
  }

  /**
    The keyframe loop of a handle drag, `break` included: for every row, the
    handle keyframes move by (dx, dy) until the first handle without
    dependents; the rest of the row stays.
  */
  method ShiftLinkedRows(init: Grid, expand: Grid, links: seq<seq<seq<int>>>, dx: real, dy: real) returns (init': Grid, expand': Grid)
    requires SameShape(links, init) && SameShape(links, expand)
    ensures init' == ShiftLinked(init, links, dx, dy) && expand' == ShiftLinked(expand, links, dx, dy)
  {
    init', expand' := init, expand;
    for i := 0 to |init|
      invariant |init'| == |init| && |expand'| == |expand|
      invariant forall a :: i <= a < |init| ==> init'[a] == init[a] && expand'[a] == expand[a]
      invariant forall a :: 0 <= a < i ==> init'[a] == ShiftLinked(init, links, dx, dy)[a] && expand'[a] == ShiftLinked(expand, links, dx, dy)[a]
    {
      var run := LinkedRun(links[i]);
      var j := 0;
      while j < |init[i]|
        invariant 0 <= j <= run && |init'| == |init| && |expand'| == |expand|
        invariant |init'[i]| == |init[i]| && |expand'[i]| == |expand[i]|
        invariant forall a :: i < a < |init| ==> init'[a] == init[a] && expand'[a] == expand[a]
        invariant forall a :: 0 <= a < i ==> init'[a] == ShiftLinked(init, links, dx, dy)[a] && expand'[a] == ShiftLinked(expand, links, dx, dy)[a]
        invariant forall b :: 0 <= b < j ==> init'[i][b] == init[i][b].Translate(dx, dy) && expand'[i][b] == expand[i][b].Translate(dx, dy)
        invariant forall b :: j <= b < |init[i]| ==> init'[i][b] == init[i][b] && expand'[i][b] == expand[i][b]
      {
        if |links[i][j]| <= 0 {
          break;
        }
        init' := init'[i := init'[i][j := init'[i][j].Translate(dx, dy)]];
        expand' := expand'[i := expand'[i][j := expand'[i][j].Translate(dx, dy)]];
        j := j + 1;
      }
      assert init'[i] == ShiftLinked(init, links, dx, dy)[i];
      assert expand'[i] == ShiftLinked(expand, links, dx, dy)[i];
    }
  }

  /** The keyframe loop applied to a laid-out part: its handle keyframes follow the drag offset d along each linked run. */
  function FollowHandle(q: Part, d: Point): (r: Part)
    requires Shaped(q)
  {
    ShapedLinks(q);
    q.(handleInit := ShiftLinked(q.handleInit, q.links, d.x, d.y), handleExpand := ShiftLinked(q.handleExpand, q.links, d.x, d.y))
  }

  lemma ShapedLinks(q: Part)
    requires Shaped(q)
    ensures SameShape(q.links, q.handleInit) && SameShape(q.links, q.handleExpand) && SameShape(q.links, q.handles)
  {
  }

  /**
    The user-point branch of mousemove: `changeControlWithUser` from the
    handle's current position to `to`; then, when the handle lists dependent
    lattices, the keyframe loop on the dragged part's handle keyframes.
  */
  function Drag(parts: seq<Part>, k: int, i: int, j: int, to: Point): (r: seq<Part>)
    requires Sound(parts) && 0 <= k < |parts| && 0 <= i < |parts[k].handles| && 0 <= j < |parts[k].handles[i]|
  {
    LinksOfHandle(parts, k, i, j);
    var deps := parts[k].links[i][j];
    var moved := ChangeControl(parts, k, i, j, to, IsArm(k), deps);
    ChangeControlLayouts(parts, k, i, j, to, IsArm(k), deps);
    if |deps| > 0 then moved[k := FollowHandle(moved[k], Offset(parts[k].handles[i][j], to))] else moved
  }

  /** The keyframe loop changes no layout. */
  lemma FollowHandleLayout(q: Part, d: Point)
    requires Shaped(q)
    ensures LayoutOf(FollowHandle(q, d)) == LayoutOf(q)
  {
    var r := FollowHandle(q, d);
    assert Shape(r.handleInit) == Shape(q.handleInit);
    assert Shape(r.handleExpand) == Shape(q.handleExpand);
  }

  /** Replacing one part by a part of the same layout keeps every layout. */
  lemma ReplaceKeepsLayouts(parts: seq<Part>, moved: seq<Part>, k: int, q: Part)
    requires Sound(parts) && SameLayouts(parts, moved) && 0 <= k < |moved| && LayoutOf(q) == LayoutOf(moved[k])
    ensures SameLayouts(parts, moved[k := q]) && Sound(moved[k := q])
  {
    SoundByLayouts(parts, moved[k := q]);
  }

  /** A drag changes no layout, so it keeps the puppet sound. */
  lemma DragLayouts(parts: seq<Part>, k: int, i: int, j: int, to: Point)
    requires Sound(parts) && 0 <= k < |parts| && 0 <= i < |parts[k].handles| && 0 <= j < |parts[k].handles[i]|
    ensures SameLayouts(parts, Drag(parts, k, i, j, to)) && Sound(Drag(parts, k, i, j, to))
  {
    LinksOfHandle(parts, k, i, j);
    var deps := parts[k].links[i][j];
    ChangeControlLayouts(parts, k, i, j, to, IsArm(k), deps);
    var moved := ChangeControl(parts, k, i, j, to, IsArm(k), deps);
    if |deps| > 0 {
      var q := FollowHandle(moved[k], Offset(parts[k].handles[i][j], to));
      FollowHandleLayout(moved[k], Offset(parts[k].handles[i][j], to));
      ReplaceKeepsLayouts(parts, moved, k, q);
    }
  }

  /**
    The user-point branch of mousemove: `changeControlWithUser` with the
    handle's own dependents, then, when it has any, the keyframe loop that
    stops at the first handle without dependents.
  */
  method DragHandle(parts: seq<Part>, k: int, i: int, j: int, to: Point) returns (r: seq<Part>)
    requires Sound(parts) && 0 <= k < |parts| && 0 <= i < |parts[k].handles| && 0 <= j < |parts[k].handles[i]|
    ensures r == Drag(parts, k, i, j, to)
  {
    LinksOfHandle(parts, k, i, j);
    var deps := parts[k].links[i][j];
    var d := Offset(parts[k].handles[i][j], to);
    r := ChangeControlWithUser(parts, k, i, j, to, IsArm(k), deps);
    ChangeControlLayouts(parts, k, i, j, to, IsArm(k), deps);
    if |deps| > 0 {
      var q := r[k];
      ShapedLinks(q);
      var init, expand := ShiftLinkedRows(q.handleInit, q.handleExpand, q.links, d.x, d.y);
      r := r[k := q.(handleInit := init, handleExpand := expand)];
    }
  }

  /**
    Handle (i, j) is the only handle of its lattice that the keyframe loop
    moves: it heads its row, and every other row's run is empty.
  */
  predicate SoleLinked(links: seq<seq<seq<int>>>, i: int, j: int)
  {
    0 <= i < |links| && j == 0 &&
    forall a :: 0 <= a < |links| ==> LinkedRun(links[a]) == if a == i then 1 else 0
  }

  /**
    The handle grid of the dragged lattice after a drag of its sole linked
    handle: the handle goes to `to` and everything is then translated by e;
    the keyframes are translated by e and the handle's keyframes moved by the
    drag offset as well.  The grid was on the blend, so it stays on it.
  */
  lemma SoleLinkedOnBlend(h: Grid, hi: Grid, he: Grid, links: seq<seq<seq<int>>>, w: real, i: int, j: int, to: Point, e: Point)
    requires OnBlend(h, hi, he, w) && SameShape(links, h) && SoleLinked(links, i, j) && j < |h[i]|
    ensures var d := Offset(h[i][j], to);
      SameShape(links, TranslateGrid(hi, e.x, e.y)) &&
      OnBlend(TranslateGrid(Set2(h, i, j, to), e.x, e.y),
              ShiftLinked(TranslateGrid(hi, e.x, e.y), links, d.x, d.y),
              ShiftLinked(TranslateGrid(he, e.x, e.y), links, d.x, d.y), w)
  {
    var d := Offset(h[i][j], to);
    var g := TranslateGrid(Set2(h, i, j, to), e.x, e.y);
    var f, t := TranslateGrid(hi, e.x, e.y), TranslateGrid(he, e.x, e.y);
    var f', t' := ShiftLinked(f, links, d.x, d.y), ShiftLinked(t, links, d.x, d.y);
    forall a, b | 0 <= a < |g| && 0 <= b < |g[a]|
      ensures g[a][b] == Lerp(f'[a][b], t'[a][b], w)
    {
      LerpTranslate(hi[a][b], he[a][b], w, e.x, e.y);
      if a == i && b == j {
        var l := Lerp(hi[a][b], he[a][b], w);
        LerpTranslate(f[a][b], t[a][b], w, d.x, d.y);
        TranslateTwice(l, e.x, e.y, d.x, d.y);
        TranslateTwice(l, d.x, d.y, e.x, e.y);
      } else {
        assert LinkedRun(links[a]) == if a == i then 1 else 0;
      }
    }
  }

  /**
    The dragged lattice itself: moved by its sole linked handle, carried by
    e (when it lists itself), its handle keyframes following the handle.  A
    settled part stays settled.
  */
  lemma FollowSettled(p: Part, i: int, j: int, to: Point, isElbow: bool, e: Point, w: real)
    requires Shaped(p) && 0 <= i < |p.handles| && 0 <= j < |p.handles[i]| && SoleLinked(p.links, i, j)
    requires Settled(p, w)
    ensures Shaped(Translated(Moved(p, i, j, to, isElbow), e.x, e.y))
    ensures Settled(FollowHandle(Translated(Moved(p, i, j, to, isElbow), e.x, e.y), Offset(p.handles[i][j], to)), w)
  {
    var d := Offset(p.handles[i][j], to);
    var q := Moved(p, i, j, to, isElbow);
    MovedLayout(p, i, j, to, isElbow);
    TranslatedLayout(q, e.x, e.y);
    ShapedByLayout(p, q);
    ShapedByLayout(q, Translated(q, e.x, e.y));
    OnBlendShift(p.live, p.init, p.expand, w, |p.live|, 0, isElbow, i, j, d.x, d.y);
    OnBlendTranslate(q.live, q.init, q.expand, w, |q.live|, 0, e.x, e.y);
    ShapedLinks(p);
    SoleLinkedOnBlend(p.handles, p.handleInit, p.handleExpand, p.links, w, i, j, to, e);
  }

  /**
    Dragging the one linked handle of a lattice anywhere keeps the whole
    puppet on its keyframe blend: its own corners move in the lattice and
    both keyframes alike, every carried lattice moves wholesale, and its
    keyframes follow the handle.  So an animation resumed after such a drag
    continues from the dragged pose.  The setup's body handle, with
    dependents [1, 2, 3], is such a handle.
  */
  lemma DragKeepsSettled(parts: seq<Part>, k: int, i: int, j: int, to: Point, w: real)
    requires Sound(parts) && 0 <= k < |parts| && 0 <= i < |parts[k].handles| && 0 <= j < |parts[k].handles[i]|
    requires SoleLinked(parts[k].links, i, j)
    requires forall m :: 0 <= m < |parts| ==> Settled(parts[m], w)
    ensures forall m :: 0 <= m < |parts| ==> Settled(Drag(parts, k, i, j, to)[m], w)
  {
    LinksOfHandle(parts, k, i, j);
    var p := parts[k];
    var deps := p.links[i][j];
    var d := Offset(p.handles[i][j], to);
    ChangeControlEffect(parts, k, i, j, to, IsArm(k), deps);
    var c := Times(deps, |deps|, k);
    FollowSettled(p, i, j, to, IsArm(k), Point(Scaled(c, d.x), Scaled(c, d.y)), w);
    CarriedSettled(parts, k, i, j, to, w);
  }

  /** The lattices a handle move carries along, and those it leaves alone, stay settled. */
  lemma CarriedSettled(parts: seq<Part>, k: int, i: int, j: int, to: Point, w: real)
    requires Sound(parts) && 0 <= k < |parts| && 0 <= i < |parts[k].handles| && 0 <= j < |parts[k].handles[i]|
    requires forall m :: 0 <= m < |parts| ==> Settled(parts[m], w)
    ensures i < |parts[k].links| && j < |parts[k].links[i]| && DepsIn(parts[k].links[i][j], |parts|)
    ensures forall m :: 0 <= m < |parts| && m != k ==> Settled(ChangeControl(parts, k, i, j, to, IsArm(k), parts[k].links[i][j])[m], w)
  {
    LinksOfHandle(parts, k, i, j);
    var deps := parts[k].links[i][j];
    var d := Offset(parts[k].handles[i][j], to);
    ChangeControlEffect(parts, k, i, j, to, IsArm(k), deps);
    forall m | 0 <= m < |parts| && m != k
      ensures Settled(ChangeControl(parts, k, i, j, to, IsArm(k), deps)[m], w)
    {
      TranslatedSettled(parts[m], w, |parts[m].handles|, 0, Scaled(Times(deps, |deps|, m), d.x), Scaled(Times(deps, |deps|, m), d.y));
    }
  }

  // ---------------------------------------------------------------------------
  // `makeUpsideDown`: a half turn of one part about the centre of its lattice.

  /** Every point of a grid reflected through m. */
  function ReflectGrid(g: Grid, m: Point): (r: Grid)
  {
    seq(|g|, i requires 0 <= i < |g| => seq(|g[i]|, j requires 0 <= j < |g[i]| => g[i][j].ReflectThrough(m)))
  }

  /** One of the six double loops of `makeUpsideDown`: subtract the centre, negate, add the centre back. */
  method ReflectInPlace(g: Grid, m: Point) returns (r: Grid)
    ensures r == ReflectGrid(g, m)
  {
    r := g;
    for i := 0 to |g|
      invariant |r| == |g| && forall a :: i <= a < |g| ==> r[a] == g[a]
      invariant forall a :: 0 <= a < i ==> r[a] == ReflectGrid(g, m)[a]
    {
      for j := 0 to |g[i]|
        invariant |r| == |g| && |r[i]| == |g[i]| && forall a :: i < a < |g| ==> r[a] == g[a]
        invariant forall a :: 0 <= a < i ==> r[a] == ReflectGrid(g, m)[a]
        invariant forall b :: 0 <= b < j ==> r[i][b] == g[i][b].ReflectThrough(m)
        invariant forall b :: j <= b < |g[i]| ==> r[i][b] == g[i][b]
      {
        var q := r[i][j];
        q := Point(q.x - m.x, q.y - m.y);
        q := Point(-q.x, -q.y);
        q := Point(q.x + m.x, q.y + m.y);
        r := r[i := r[i][j := q]];
      }
      assert r[i] == ReflectGrid(g, m)[i];
    }
  }

  /** The centre of the flip: the midpoint of the lattice's corners [0][0] and [rows − 1][cols − 1]. */
  function Centre(p: Part): Point
    requires Shaped(p)
  {
    Midpoint(p.live[0][0], p.live[|p.live| - 1][|p.live[0]| - 1])
  }

  /** `makeUpsideDown` on the six arrays of a part, all through the centre taken before any of them moves. */
  function UpsideDown(p: Part): Part
    requires Shaped(p)
  {
    var m := Centre(p);
    Part(ReflectGrid(p.live, m), ReflectGrid(p.init, m), ReflectGrid(p.expand, m),
         ReflectGrid(p.handles, m), ReflectGrid(p.handleInit, m), ReflectGrid(p.handleExpand, m), p.links)
  }

  /** The six loops in the order the source runs them. */
  method MakeUpsideDown(p: Part) returns (r: Part)
    requires Shaped(p)
    ensures r == UpsideDown(p)
  {
    var m := Centre(p);
    var live := ReflectInPlace(p.live, m);
    var handles := ReflectInPlace(p.handles, m);
    var init := ReflectInPlace(p.init, m);
    var expand := ReflectInPlace(p.expand, m);
    var handleInit := ReflectInPlace(p.handleInit, m);
    var handleExpand := ReflectInPlace(p.handleExpand, m);
    r := Part(live, init, expand, handles, handleInit, handleExpand, p.links);
  }

  /** The flip keeps every array's shape and the links. */
  lemma UpsideDownLayout(p: Part)
    requires Shaped(p)
    ensures LayoutOf(UpsideDown(p)) == LayoutOf(p) && Shaped(UpsideDown(p))
  {
    ShapedByLayout(p, UpsideDown(p));
  }

  /**
    The flip swaps the two corners that define its centre, so the centre
    stays where it was.
  */
  lemma UpsideDownCorners(p: Part)
    requires Shaped(p)
    ensures var q, last, lastCol := UpsideDown(p), |p.live| - 1, |p.live[0]| - 1;
      q.live[0][0] == p.live[last][lastCol] && q.live[last][lastCol] == p.live[0][0]
    ensures Shaped(UpsideDown(p)) && Centre(UpsideDown(p)) == Centre(p)
  {
    UpsideDownLayout(p);
  }

  /** Flipping twice gives the part back. */
  lemma UpsideDownTwice(p: Part)
    requires Shaped(p)
    ensures Shaped(UpsideDown(p)) && UpsideDown(UpsideDown(p)) == p
  {
    UpsideDownLayout(p);
    UpsideDownCorners(p);
    var m := Centre(p);
    ReflectGridTwice(p.live, m);
    ReflectGridTwice(p.init, m);
    ReflectGridTwice(p.expand, m);
    ReflectGridTwice(p.handles, m);
    ReflectGridTwice(p.handleInit, m);
    ReflectGridTwice(p.handleExpand, m);
  }

  lemma ReflectGridTwice(g: Grid, m: Point)
    ensures ReflectGrid(ReflectGrid(g, m), m) == g
  {
    var r := ReflectGrid(ReflectGrid(g, m), m);
    forall a, b | 0 <= a < |g| && 0 <= b < |g[a]|
      ensures r[a][b] == g[a][b]
    {
      ReflectTwice(g[a][b], m);
    }
    assert forall a :: 0 <= a < |g| ==> r[a] == g[a];
  }

  /** A grid on the blend of its keyframes stays on it when all three are reflected. */
  lemma OnBlendReflect(g: Grid, from: Grid, to: Grid, w: real, m: Point)
    requires OnBlend(g, from, to, w)
    ensures OnBlend(ReflectGrid(g, m), ReflectGrid(from, m), ReflectGrid(to, m), w)
  {
    var g', from', to' := ReflectGrid(g, m), ReflectGrid(from, m), ReflectGrid(to, m);
    forall a, b | 0 <= a < |g'| && 0 <= b < |g'[a]|
      ensures g'[a][b] == Lerp(from'[a][b], to'[a][b], w)
    {
      LerpReflect(from[a][b], to[a][b], w, m);
    }
  }

  /** The keyframes are flipped with the lattice, so a settled part stays settled. */
  lemma UpsideDownSettled(p: Part, w: real)
    requires Shaped(p) && Settled(p, w)
    ensures Settled(UpsideDown(p), w)
  {
    var m := Centre(p);
    OnBlendReflect(p.live, p.init, p.expand, w, m);
    OnBlendReflect(p.handles, p.handleInit, p.handleExpand, w, m);
  }

  /**
    The drawn shape turns with the lattice: every sample drawn through the
    flipped lattice is the sample drawn through the old one, reflected
    through the centre.
  */
  lemma RenderUpsideDown(d: DrawnPoint, p: Part, rows: int, cols: int)
    requires Shaped(p) && CellFits(p.live, Cell(d.gridX, d.gridY))
    ensures CellFits(UpsideDown(p).live, Cell(d.gridX, d.gridY))
    ensures Render(d, UpsideDown(p).live, rows, cols) == Render(d, p.live, rows, cols).ReflectThrough(Centre(p))
  {
    var g, m := p.live, Centre(p);
    var i, j := d.gridX, d.gridY;
    var r := ReflectGrid(g, m);
    RenderCorners(d, g, rows, cols);
    RenderCorners(d, r, rows, cols);
    Blend4Reflect(g[i][j], g[i][j + 1], g[i + 1][j], g[i + 1][j + 1],
                  d.x * (cols - 1) as real - j as real, d.y * (rows - 1) as real - i as real, m);
  }
}
