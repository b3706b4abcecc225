/**
  Hit testing for the mousedown handlers.  Every version scans its points in
  order (lattice k, then row i, then entry j) and records each point within the
  10-pixel pick radius, so the LAST such point in scan order is the one grabbed;
  a press that hits nothing leaves the previous grab in place.
*/
module Pointer {
  import opened Geometry

  datatype Option<T> = None | Some(value: T)

  /**
    The grabbed point: lattice k (always 0 in version 1, which has one
    lattice), row i, entry j, and whether it is a control point or a user point.
  */
  datatype Target = Target(k: int, i: int, j: int, isControl: bool)

  /** The scan over the first n entries of row i of lattice k. */
  function ScanRow(row: seq<Point>, n: nat, mx: real, my: real, k: int, i: int, isControl: bool, cur: Option<Target>): Option<Target>
    requires n <= |row|
  {
    if n == 0 then cur
    else
      var prev := ScanRow(row, n - 1, mx, my, k, i, isControl, cur);
      if Near(row[n - 1], mx, my) then Some(Target(k, i, n - 1, isControl)) else prev
  }

  /** The scan over the first n rows of lattice k, each row over its whole length. */
  function ScanGrid(g: Grid, n: nat, mx: real, my: real, k: int, isControl: bool, cur: Option<Target>): Option<Target>
    requires n <= |g|
  {
    if n == 0 then cur
    else ScanRow(g[n - 1], |g[n - 1]|, mx, my, k, n - 1, isControl, ScanGrid(g, n - 1, mx, my, k, isControl, cur))
  }

  /** The scan over the first n lattices, each over all its rows. */
  function ScanGrids(gs: seq<Grid>, n: nat, mx: real, my: real, isControl: bool, cur: Option<Target>): Option<Target>
    requires n <= |gs|
  {
    if n == 0 then cur
    else ScanGrid(gs[n - 1], |gs[n - 1]|, mx, my, n - 1, isControl, ScanGrids(gs, n - 1, mx, my, isControl, cur))
  }

  /** No entry among the first n of the row is within reach. */
  predicate RowNoHit(row: seq<Point>, n: nat, mx: real, my: real)
    requires n <= |row|
  {
    forall j :: 0 <= j < n ==> !Near(row[j], mx, my)
  }

  /** No point among the first n rows of g is within reach. */
  predicate NoHit(g: Grid, n: nat, mx: real, my: real)
    requires n <= |g|
  {
    forall i, j :: 0 <= i < n && 0 <= j < |g[i]| ==> !Near(g[i][j], mx, my)
  }

  /** t names a point of the first n rows of g that is within reach, and no later point of them is. */
  predicate IsLastHit(g: Grid, n: nat, mx: real, my: real, t: Target)
    requires n <= |g|
  {
    0 <= t.i < n && 0 <= t.j < |g[t.i]| && Near(g[t.i][t.j], mx, my) &&
    forall i, j :: 0 <= i < n && 0 <= j < |g[i]| && (i > t.i || (i == t.i && j > t.j)) ==> !Near(g[i][j], mx, my)
  }

  /** No point of the first n lattices is within reach. */
  predicate NoHitAny(gs: seq<Grid>, n: nat, mx: real, my: real)
    requires n <= |gs|
  {
    forall k :: 0 <= k < n ==> NoHit(gs[k], |gs[k]|, mx, my)
  }

  /** t is the last point within reach among the first n lattices. */
  predicate IsLastHitAny(gs: seq<Grid>, n: nat, mx: real, my: real, t: Target)
    requires n <= |gs|
  {
    0 <= t.k < n && IsLastHit(gs[t.k], |gs[t.k]|, mx, my, t) &&
    forall k :: t.k < k < n ==> NoHit(gs[k], |gs[k]|, mx, my)
  }

  /** A row scan keeps the current grab on a miss and otherwise grabs the last entry within reach. */
  lemma {:induction false} ScanRowFindsLastHit(row: seq<Point>, n: nat, mx: real, my: real, k: int, i: int, isControl: bool, cur: Option<Target>)
    requires n <= |row|
    ensures RowNoHit(row, n, mx, my) ==> ScanRow(row, n, mx, my, k, i, isControl, cur) == cur
    ensures var r := ScanRow(row, n, mx, my, k, i, isControl, cur);
      !RowNoHit(row, n, mx, my) ==>
        r.Some? && r.value.k == k && r.value.i == i && r.value.isControl == isControl &&
        0 <= r.value.j < n && Near(row[r.value.j], mx, my) &&
        forall j :: r.value.j < j < n ==> !Near(row[j], mx, my)
  {
    if n > 0 {
      ScanRowFindsLastHit(row, n - 1, mx, my, k, i, isControl, cur);
    }
  }

  /**
    A lattice scan keeps the current grab when nothing is within reach and
    otherwise grabs the last point within reach in row-major order.
  */
  lemma {:induction false} ScanGridFindsLastHit(g: Grid, n: nat, mx: real, my: real, k: int, isControl: bool, cur: Option<Target>)
    requires n <= |g|
    ensures var r := ScanGrid(g, n, mx, my, k, isControl, cur);
      if NoHit(g, n, mx, my) then r == cur
      else r.Some? && r.value.k == k && r.value.isControl == isControl && IsLastHit(g, n, mx, my, r.value)
  {
    if n > 0 {
      var prev := ScanGrid(g, n - 1, mx, my, k, isControl, cur);
      ScanGridFindsLastHit(g, n - 1, mx, my, k, isControl, cur);
      ScanRowFindsLastHit(g[n - 1], |g[n - 1]|, mx, my, k, n - 1, isControl, prev);
      var r := ScanGrid(g, n, mx, my, k, isControl, cur);
      if !NoHit(g, n, mx, my) {
        if RowNoHit(g[n - 1], |g[n - 1]|, mx, my) {
          assert !NoHit(g, n - 1, mx, my);
          assert IsLastHit(g, n, mx, my, r.value);
        } else {
          assert IsLastHit(g, n, mx, my, r.value);
        }
      }
    }
  }

  /**
    A scan over several lattices keeps the current grab when nothing is within
    reach and otherwise grabs the last point within reach in (k, i, j) order.
  */
  lemma {:induction false} ScanGridsFindsLastHit(gs: seq<Grid>, n: nat, mx: real, my: real, isControl: bool, cur: Option<Target>)
    requires n <= |gs|
    ensures var r := ScanGrids(gs, n, mx, my, isControl, cur);
      if NoHitAny(gs, n, mx, my) then r == cur
      else r.Some? && r.value.isControl == isControl && IsLastHitAny(gs, n, mx, my, r.value)
  {
    if n > 0 {
      var prev := ScanGrids(gs, n - 1, mx, my, isControl, cur);
      ScanGridsFindsLastHit(gs, n - 1, mx, my, isControl, cur);
      ScanGridFindsLastHit(gs[n - 1], |gs[n - 1]|, mx, my, n - 1, isControl, prev);
      var r := ScanGrids(gs, n, mx, my, isControl, cur);
      if !NoHitAny(gs, n, mx, my) {
        if NoHit(gs[n - 1], |gs[n - 1]|, mx, my) {
          assert !NoHitAny(gs, n - 1, mx, my);
          assert IsLastHitAny(gs, n, mx, my, r.value);
        } else {
          assert IsLastHitAny(gs, n, mx, my, r.value);
        }
      }
    }
  }

  /**
    The mousedown scan of versions 4 and 5: the control points of every
    lattice, then the user points of every lattice.
  */
  function ScanAll(controls: seq<Grid>, users: seq<Grid>, mx: real, my: real, cur: Option<Target>): Option<Target>
  {
    ScanGrids(users, |users|, mx, my, false, ScanGrids(controls, |controls|, mx, my, true, cur))
  }

  /**
    User points are scanned last, so a user point within reach always wins over
    control points; only when no user point is within reach does the last control
    point within reach win, and when nothing is within reach the grab is kept.
  */
  lemma UserPointsWin(controls: seq<Grid>, users: seq<Grid>, mx: real, my: real, cur: Option<Target>)
    ensures var r := ScanAll(controls, users, mx, my, cur);
      if !NoHitAny(users, |users|, mx, my) then
        r.Some? && !r.value.isControl && IsLastHitAny(users, |users|, mx, my, r.value)
      else if !NoHitAny(controls, |controls|, mx, my) then
        r.Some? && r.value.isControl && IsLastHitAny(controls, |controls|, mx, my, r.value)
      else r == cur
  {
    ScanGridsFindsLastHit(controls, |controls|, mx, my, true, cur);
    ScanGridsFindsLastHit(users, |users|, mx, my, false, ScanGrids(controls, |controls|, mx, my, true, cur));
  }

  /** The double loop over the first n rows of lattice k. */
  method ScanLattice(g: Grid, n: nat, mx: real, my: real, k: int, isControl: bool, cur: Option<Target>) returns (r: Option<Target>)
    requires n <= |g|
    ensures r == ScanGrid(g, n, mx, my, k, isControl, cur)
  {
    r := cur;
    var i := 0;
    while i < n
      invariant 0 <= i <= n
      invariant r == ScanGrid(g, i, mx, my, k, isControl, cur)
    {
      var j := 0;
      while j < |g[i]|
        invariant 0 <= j <= |g[i]|
        invariant r == ScanRow(g[i], j, mx, my, k, i, isControl, ScanGrid(g, i, mx, my, k, isControl, cur))
      {
        if Near(g[i][j], mx, my) {
          r := Some(Target(k, i, j, isControl));
        }
        j := j + 1;
      }
      i := i + 1;
    }
  }

  /** The triple loop over every lattice, row and entry. */
  method ScanLattices(gs: seq<Grid>, mx: real, my: real, isControl: bool, cur: Option<Target>) returns (r: Option<Target>)
    ensures r == ScanGrids(gs, |gs|, mx, my, isControl, cur)
  {
    r := cur;
    var k := 0;
    while k < |gs|
      invariant 0 <= k <= |gs|
      invariant r == ScanGrids(gs, k, mx, my, isControl, cur)
    {
      r := ScanLattice(gs[k], |gs[k]|, mx, my, k, isControl, r);
      k := k + 1;
    }
  }
}
