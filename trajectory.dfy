/**
 * The stepping kernel shared by the three trajectory loops of the system
 * (`Particle.propagate`, the viewer's `calculate_path` and the stand-alone
 * plotting script). Each step rotates the transverse momentum by a fixed
 * angle, leaves the axial momentum alone, and then advances the position by
 * momentum over energy times the time step (the ultra-relativistic v = p/E).
 * The three loops differ only in where they start and when they stop; each is
 * proved against `Iterate` below, so they agree step for step.
 */
module Trajectory {
  import opened Numerics

  /** Converts Tesla times metres into GeV of momentum in every cyclotron rate. */
  const FieldConversion: real := 0.3

  /** The solenoid field, in Tesla, that both track-drawing loops use. */
  const SolenoidField: real := 3.8

  /** A point of a path, in metres; z runs along the beam and the field. */
  datatype Point = Point(x: real, y: real, z: real)

  /** The squared distance x^2 + y^2 of a point from the beam axis. */
  function RadiusSquared(x: real, y: real): (r: real)
    ensures 0.0 <= r
  {
    x * x + y * y
  }

  /** The origin, where every collision happens. */
  const Origin: Point := Point(0.0, 0.0, 0.0)

  /** What the loop carries from one step to the next: position and rotated transverse momentum. */
  datatype State = State(pos: Point, px: real, py: real)

  /**
   * What stays fixed during one run: the energy, the axial momentum, the time
   * step, and the cosine and sine of the angle the momentum turns per step.
   */
  datatype Kernel = Kernel(e: real, pz: real, dt: real, cosPhi: real, sinPhi: real)

  /** The cyclotron rate `0.3 * B * charge / E` of a charge in an axial field. */
  function Omega(b: real, charge: int, e: real): real
    requires e != 0.0
  {
    (FieldConversion * b * charge as real) / e
  }

  /** The angle `omega * dt` the transverse momentum turns by in one step. */
  function TurnAngle(omega: real, dt: real): real
  {
    omega * dt
  }

  /** The kernel of a particle with energy `e`, axial momentum `pz` and `charge` in field `b`. */
  function KernelFor(num: Primitives, b: real, charge: int, e: real, pz: real, dt: real): (k: Kernel)
    requires e != 0.0
    ensures k.e == e && k.pz == pz && k.dt == dt
  {
    var dPhi := TurnAngle(Omega(b, charge, e), dt);
    Kernel(e, pz, dt, num.cos(dPhi), num.sin(dPhi))
  }

  /** With a cosine and sine on the unit circle, the kernel's per-step turn is a rotation. */
  lemma KernelRotates(num: Primitives, b: real, charge: int, e: real, pz: real, dt: real)
    requires e != 0.0
    requires IsUnitCircle(num.cos, num.sin)
    ensures var k := KernelFor(num, b, charge, e, pz, dt); k.cosPhi * k.cosPhi + k.sinPhi * k.sinPhi == 1.0
  {
    var dPhi := TurnAngle(Omega(b, charge, e), dt);
    assert num.cos(dPhi) * num.cos(dPhi) + num.sin(dPhi) * num.sin(dPhi) == 1.0;
  }

  /** With no field, or no charge, the per-step angle is zero and the momentum does not turn. */
  lemma NoFieldNoTurn(num: Primitives, b: real, charge: int, e: real, pz: real, dt: real)
    requires e != 0.0
    requires IsUnitCircle(num.cos, num.sin)
    requires b == 0.0 || charge == 0
    ensures KernelFor(num, b, charge, e, pz, dt).cosPhi == 1.0
    ensures KernelFor(num, b, charge, e, pz, dt).sinPhi == 0.0
  {
    assert FieldConversion * b * charge as real == 0.0;
    assert Omega(b, charge, e) == 0.0;
    assert TurnAngle(Omega(b, charge, e), dt) == 0.0;
  }

  /** Squared length of the transverse momentum. */
  function TransverseSquared(s: State): real
  {
    s.px * s.px + s.py * s.py
  }

  /** The transverse momentum (px, py) turned by the angle whose cosine and sine are given. */
  function Turn(px: real, py: real, cosPhi: real, sinPhi: real): (real, real)
  {
    (px * cosPhi - py * sinPhi, px * sinPhi + py * cosPhi)
  }

  /** How far velocity `p / e` carries a coordinate in time `dt`. */
  function Displacement(p: real, e: real, dt: real): real
    requires e != 0.0
  {
    (p / e) * dt
  }

  /** How far `n` equal steps of velocity `p / e` and duration `dt` carry a coordinate. */
  function Drift(n: nat, p: real, e: real, dt: real): real
    requires e != 0.0
  {
    (n as real) * Displacement(p, e, dt)
  }

  /** One coordinate moved by velocity `p / e` for time `dt`. */
  function Advance(coord: real, p: real, e: real, dt: real): real
    requires e != 0.0
  {
    coord + Displacement(p, e, dt)
  }

  /** One step: turn (px, py) by the kernel's angle, then advance the position with the turned momentum. */
  function Step(s: State, k: Kernel): State
    requires k.e != 0.0
  {
    var turned := Turn(s.px, s.py, k.cosPhi, k.sinPhi);
    State(Point(Advance(s.pos.x, turned.0, k.e, k.dt),
                Advance(s.pos.y, turned.1, k.e, k.dt),
                Advance(s.pos.z, k.pz, k.e, k.dt)),
          turned.0, turned.1)
  }

  /** The state after `n` steps from `s`. */
  function Iterate(s: State, n: nat, k: Kernel): State
    requires k.e != 0.0
  {
    if n == 0 then s else Step(Iterate(s, n - 1, k), k)
  }

  /** The first `count` positions of the run from `s`, its own position first. */
  function Positions(s: State, count: nat, k: Kernel): (path: seq<Point>)
    requires k.e != 0.0
    ensures |path| == count
    ensures 0 < count ==> path[0] == s.pos
  {
    if count == 0 then [] else Positions(s, count - 1, k) + [Iterate(s, count - 1, k).pos]
  }

  /** The `i`-th of those positions is the one reached after `i` steps. */
  lemma {:induction false} PositionsAt(s: State, count: nat, k: Kernel, i: nat)
    requires k.e != 0.0
    requires i < count
    ensures Positions(s, count, k)[i] == Iterate(s, i, k).pos
  {
    if i < count - 1 {
      PositionsAt(s, count - 1, k, i);
    }
  }

  /** The three coordinate lists hold, point by point, the coordinates of `path`. */
  ghost predicate Plotted(xs: seq<real>, ys: seq<real>, zs: seq<real>, path: seq<Point>)
  {
    && |xs| == |path| && |ys| == |path| && |zs| == |path|
    && forall j :: 0 <= j < |path| ==> Point(xs[j], ys[j], zs[j]) == path[j]
  }

  /** Each step moves z by exactly `(pz / E) * dt`, whatever the transverse motion does. */
  lemma AxialStep(s: State, n: nat, k: Kernel)
    requires k.e != 0.0
    ensures Iterate(s, n + 1, k).pos.z == Iterate(s, n, k).pos.z + Displacement(k.pz, k.e, k.dt)
  {
  }

  /**
   * The axial momentum is never rotated, so z drifts linearly: each step adds
   * exactly `(pz / E) * dt`, and after `n` steps z has moved by `n` times that.
   */
  lemma {:induction false} AxialDrift(s: State, n: nat, k: Kernel)
    requires k.e != 0.0
    ensures Iterate(s, n, k).pos.z == s.pos.z + Drift(n, k.pz, k.e, k.dt)
  {
    if n > 0 {
      AxialDrift(s, n - 1, k);
    }
  }

  /** A turn by an angle whose cosine and sine lie on the unit circle keeps the transverse momentum's length. */
  lemma StepKeepsLength(t: State, k: Kernel)
    requires k.e != 0.0
    requires k.cosPhi * k.cosPhi + k.sinPhi * k.sinPhi == 1.0
    ensures TransverseSquared(Step(t, k)) == TransverseSquared(t)
  {
    var a, b, c, s := t.px, t.py, k.cosPhi, k.sinPhi;
    var p, q := a * c - b * s, a * s + b * c;
    assert p * p + q * q == (a * a + b * b) * (c * c + s * s);
    assert Step(t, k).px == p && Step(t, k).py == q;
  }

  /**
   * The field changes the direction of the transverse momentum and not its
   * size: when the kernel's cosine and sine lie on the unit circle, every step
   * keeps px^2 + py^2.
   */
  lemma {:induction false} TransverseMomentumKept(s: State, n: nat, k: Kernel)
    requires k.e != 0.0
    requires k.cosPhi * k.cosPhi + k.sinPhi * k.sinPhi == 1.0
    ensures TransverseSquared(Iterate(s, n, k)) == TransverseSquared(s)
  {
    if n > 0 {
      TransverseMomentumKept(s, n - 1, k);
      var t := Iterate(s, n - 1, k);
      StepKeepsLength(t, k);
    }
  }

  /**
   * Without rotation (no field, or no charge) the momentum never turns and
   * the particle moves on a straight line along its original direction.
   */
  lemma {:induction false} StraightLine(s: State, n: nat, k: Kernel)
    requires k.e != 0.0
    requires k.cosPhi == 1.0 && k.sinPhi == 0.0
    ensures Iterate(s, n, k).px == s.px && Iterate(s, n, k).py == s.py
    ensures Iterate(s, n, k).pos == Point(s.pos.x + Drift(n, s.px, k.e, k.dt),
                                          s.pos.y + Drift(n, s.py, k.e, k.dt),
                                          s.pos.z + Drift(n, k.pz, k.e, k.dt))
  {
    if n > 0 {
      StraightLine(s, n - 1, k);
    }
  }

  /**
   * For a charge in any field, run with a genuine cosine and sine: the
   * transverse momentum after any number of steps has its starting length.
   */
  lemma FieldKeepsTransverseMomentum(num: Primitives, b: real, charge: int, e: real, pz: real, dt: real, s: State, n: nat)
    requires e != 0.0
    requires IsUnitCircle(num.cos, num.sin)
    ensures TransverseSquared(Iterate(s, n, KernelFor(num, b, charge, e, pz, dt))) == TransverseSquared(s)
  {
    KernelRotates(num, b, charge, e, pz, dt);
    TransverseMomentumKept(s, n, KernelFor(num, b, charge, e, pz, dt));
  }

  /**
   * With no field, or a neutral particle, the track is a straight line: the
   * momentum never turns and every coordinate drifts by `n * (p / E) * dt`.
   */
  lemma NoFieldStraightTrack(num: Primitives, b: real, charge: int, e: real, pz: real, dt: real, s: State, n: nat)
    requires e != 0.0
    requires IsUnitCircle(num.cos, num.sin)
    requires b == 0.0 || charge == 0
    ensures Iterate(s, n, KernelFor(num, b, charge, e, pz, dt)).px == s.px
    ensures Iterate(s, n, KernelFor(num, b, charge, e, pz, dt)).py == s.py
    ensures Iterate(s, n, KernelFor(num, b, charge, e, pz, dt)).pos
              == Point(s.pos.x + Drift(n, s.px, e, dt), s.pos.y + Drift(n, s.py, e, dt), s.pos.z + Drift(n, pz, e, dt))
  {
    NoFieldNoTurn(num, b, charge, e, pz, dt);
    StraightLine(s, n, KernelFor(num, b, charge, e, pz, dt));
  }
}
