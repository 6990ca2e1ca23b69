/**
 * The stand-alone plotting script's stepping loop: the track of one muon,
 * from the muon's own position, until it passes the wall of the tracking
 * volume or runs out of steps. Unlike the viewer's track it has no bound
 * along the beam, and it keeps the first point outside the wall.
 */
module VisualTest {
  import opened Numerics
  import opened Trajectory
  import opened PhysicsEngine

  /** Time step, in seconds, of a plotted track. */
  const PlotDt: real := 0.1
  /** Most steps a plotted track takes. */
  const MaxSteps: nat := 2000
  /** Radius, in metres, of the wall that ends a plotted track. */
  const WallRadius: real := 7.5

  /** A point no farther from the beam than the wall. */
  ghost predicate WithinWall(q: Point)
  {
    RadiusSquared(q.x, q.y) <= WallRadius * WallRadius
  }

  /**
   * The plotted track of `p`, as three coordinate lists. It starts at the
   * particle's own position and follows the kernel step by step; every point
   * but the last is within the wall, and when the track is shorter than the
   * step budget allows, its last point is the first one past the wall. The
   * particle itself is not changed.
   */
  method TracePath(p: Particle, num: Primitives) returns (xs: seq<real>, ys: seq<real>, zs: seq<real>)
    requires p.E != 0.0
    requires IsSqrt(num.sqrt)
    ensures 1 <= |xs| <= MaxSteps + 1 && |ys| == |xs| && |zs| == |xs|
    ensures xs[0] == p.x && ys[0] == p.y && zs[0] == p.z
    ensures forall i :: 0 <= i < |xs| ==>
              Point(xs[i], ys[i], zs[i])
                == Iterate(State(p.Position(), p.px, p.py), i, KernelFor(num, SolenoidField, p.charge, p.E, p.pz, PlotDt)).pos
    ensures forall i :: 0 <= i < |xs| - 1 ==> WithinWall(Point(xs[i], ys[i], zs[i]))
    ensures |xs| <= MaxSteps ==> !WithinWall(Point(xs[|xs| - 1], ys[|ys| - 1], zs[|zs| - 1]))
    ensures forall i :: 0 <= i < |zs| - 1 ==> zs[i + 1] == zs[i] + Displacement(p.pz, p.E, PlotDt)
  {
    xs, ys, zs := [p.x], [p.y], [p.z];
    var dt, maxSteps, radiusLimit := PlotDt, MaxSteps, WallRadius;
    var currentX, currentY, currentZ := p.x, p.y, p.z;
    var currPx, currPy, currPz := p.px, p.py, p.pz;
    var omega := Omega(SolenoidField, p.charge, p.E);
    ghost var start := State(p.Position(), currPx, currPy);
    ghost var kernel := KernelFor(num, SolenoidField, p.charge, p.E, currPz, dt);
    ghost var current := start;
    ghost var path := [start.pos];
    for i := 0 to maxSteps
      invariant current == Iterate(start, i, kernel)
      invariant current == State(Point(currentX, currentY, currentZ), currPx, currPy)
      invariant path == Positions(start, i + 1, kernel)
      invariant Plotted(xs, ys, zs, path)
      invariant forall j :: 0 <= j < i ==> WithinWall(path[j])
    {
      var r := num.sqrt(RadiusSquared(currentX, currentY));
      SqrtExceeds(num.sqrt, RadiusSquared(currentX, currentY), radiusLimit);
      if r > radiusLimit {
        break;
      }
      var dPhi := TurnAngle(omega, dt);
      var turned := Turn(currPx, currPy, num.cos(dPhi), num.sin(dPhi));
      currPx, currPy := turned.0, turned.1;
      currentX := Advance(currentX, currPx, p.E, dt);
      currentY := Advance(currentY, currPy, p.E, dt);
      currentZ := Advance(currentZ, currPz, p.E, dt);
      xs, ys, zs := xs + [currentX], ys + [currentY], zs + [currentZ];
      current := Step(current, kernel);
      path := path + [current.pos];
    }
    forall i | 0 <= i < |xs|
      ensures Point(xs[i], ys[i], zs[i]) == Iterate(start, i, kernel).pos
    {
      PositionsAt(start, |path|, kernel, i);
    }
    forall i | 0 <= i < |zs| - 1
      ensures zs[i + 1] == zs[i] + Displacement(p.pz, p.E, PlotDt)
    {
      AxialStep(start, i, kernel);
    }
  }
}
