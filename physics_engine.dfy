/**
 * The physics and data layer: a particle with its four-momentum, charge and
 * position; an event holding an ordered list of particles and a cached
 * invariant mass; and the loader that turns tabulated two-muon rows into
 * events. All quantities are read as mathematical reals.
 */
module PhysicsEngine {
  import opened Numerics
  import opened Trajectory

  /** Energy and momentum, in GeV, of one particle or of a pair taken together. */
  datatype FourMomentum = FourMomentum(e: real, px: real, py: real, pz: real)

  /** E^2 - |p|^2, which may come out negative for inconsistent input. */
  function MassSquared(p: FourMomentum): real
  {
    p.e * p.e - (p.px * p.px + p.py * p.py + p.pz * p.pz)
  }

  /** The component-wise sum of two four-momenta. */
  function Sum(a: FourMomentum, b: FourMomentum): FourMomentum
  {
    FourMomentum(a.e + b.e, a.px + b.px, a.py + b.py, a.pz + b.pz)
  }

  /**
   * The invariant mass of a four-momentum: the square root of E^2 - |p|^2
   * clamped at zero, so it never fails and is never negative.
   */
  function InvariantMass(num: Primitives, p: FourMomentum): (m: real)
    requires IsSqrt(num.sqrt)
    ensures 0.0 <= m
    ensures m * m == Max(0.0, p.e * p.e - (p.px * p.px + p.py * p.py + p.pz * p.pz))
    ensures m == 0.0 <==> p.e * p.e <= p.px * p.px + p.py * p.py + p.pz * p.pz
  {
    ClampedSqrt(num.sqrt, MassSquared(p));
    num.sqrt(Max(0.0, MassSquared(p)))
  }

  /** The invariant mass of a pair: that of the summed four-momentum. */
  function PairMass(num: Primitives, a: FourMomentum, b: FourMomentum): (m: real)
    requires IsSqrt(num.sqrt)
    ensures 0.0 <= m
    ensures m * m == Max(0.0, (a.e + b.e) * (a.e + b.e)
                              - ((a.px + b.px) * (a.px + b.px)
                                 + (a.py + b.py) * (a.py + b.py)
                                 + (a.pz + b.pz) * (a.pz + b.pz)))
  {
    InvariantMass(num, Sum(a, b))
  }

  /** Swapping the two particles of a pair does not change its mass. */
  lemma PairMassSymmetric(num: Primitives, a: FourMomentum, b: FourMomentum)
    requires IsSqrt(num.sqrt)
    ensures PairMass(num, a, b) == PairMass(num, b, a)
  {
    assert Sum(a, b) == Sum(b, a);
  }

  /**
   * The two muons E1=20, p1=(3,1,2) and E2=18, p2=(-2,0,1) have a summed
   * four-momentum (38; 1, 1, 3), so their mass squared is 38^2 - 11 = 1433.
   */
  lemma ExamplePairMass(num: Primitives)
    requires IsSqrt(num.sqrt)
    ensures PairMass(num, FourMomentum(20.0, 3.0, 1.0, 2.0), FourMomentum(18.0, -2.0, 0.0, 1.0)) > 0.0
    ensures PairMass(num, FourMomentum(20.0, 3.0, 1.0, 2.0), FourMomentum(18.0, -2.0, 0.0, 1.0))
          * PairMass(num, FourMomentum(20.0, 3.0, 1.0, 2.0), FourMomentum(18.0, -2.0, 0.0, 1.0)) == 1433.0
  {
    var total := Sum(FourMomentum(20.0, 3.0, 1.0, 2.0), FourMomentum(18.0, -2.0, 0.0, 1.0));
    assert total == FourMomentum(38.0, 1.0, 1.0, 3.0);
    assert MassSquared(total) == 1433.0;
  }

  /** Python's `range(steps)` runs `steps` times, and not at all when `steps` is negative. */
  function Iterations(steps: int): nat
  {
    if steps < 0 then 0 else steps
  }

  /** A particle: four-momentum and charge as given, position starting at the collision point. */
  class Particle {
    var E: real
    var px: real
    var py: real
    var pz: real
    var charge: int
    var x: real
    var y: real
    var z: real

    /** The particle's kinematics are the given ones and it sits at the origin. */
    ghost predicate Holds(e: real, qx: real, qy: real, qz: real, q: int)
      reads this
    {
      E == e && px == qx && py == qy && pz == qz && charge == q && Position() == Origin
    }

    constructor (e: real, qx: real, qy: real, qz: real, q: int)
      ensures Holds(e, qx, qy, qz, q)
    {
      E, px, py, pz, charge := e, qx, qy, qz, q;
      x, y, z := 0.0, 0.0, 0.0;
    }

    function Momentum(): FourMomentum
      reads this
    {
      FourMomentum(E, px, py, pz)
    }

    function Position(): Point
      reads this
    {
      Point(x, y, z)
    }

    /** The rest mass: sqrt(max(0, E^2 - |p|^2)), non-negative, and zero exactly when E^2 <= |p|^2. */
    function Mass(num: Primitives): (m: real)
      reads this
      requires IsSqrt(num.sqrt)
      ensures 0.0 <= m
      ensures m * m == Max(0.0, E * E - (px * px + py * py + pz * pz))
      ensures m == 0.0 <==> E * E <= px * px + py * py + pz * pz
    {
      InvariantMass(num, Momentum())
    }

    /**
     * Steps the particle through an axial field `bFieldZ` for `steps` steps of
     * `dt`, moving its own position and returning the visited coordinates,
     * starting with the position before the call. The momentum is rotated in
     * local copies only, so nothing but x, y and z changes.
     */
    method Propagate(num: Primitives, bFieldZ: real, dt: real, steps: int) returns (xs: seq<real>, ys: seq<real>, zs: seq<real>)
      requires E != 0.0
      modifies this`x, this`y, this`z
      ensures E == old(E) && px == old(px) && py == old(py) && pz == old(pz) && charge == old(charge)
      ensures |xs| == Iterations(steps) + 1 && |ys| == |xs| && |zs| == |xs|
      ensures xs[0] == old(x) && ys[0] == old(y) && zs[0] == old(z)
      ensures forall i :: 0 <= i < |xs| ==>
                Point(xs[i], ys[i], zs[i])
                == Iterate(State(old(Position()), px, py), i, KernelFor(num, bFieldZ, charge, E, pz, dt)).pos
      ensures x == xs[|xs| - 1] && y == ys[|ys| - 1] && z == zs[|zs| - 1]
      ensures forall i :: 0 <= i < |zs| - 1 ==> zs[i + 1] == zs[i] + Displacement(pz, E, dt)
      ensures z == old(z) + Drift(Iterations(steps), pz, E, dt)
    {
      xs, ys, zs := [x], [y], [z];
      var currPx, currPy, currPz := px, py, pz;
      var omega := Omega(bFieldZ, charge, E);
      ghost var start := State(Position(), px, py);
      ghost var kernel := KernelFor(num, bFieldZ, charge, E, pz, dt);
      ghost var current := start;
      ghost var path := [start.pos];
      var n := Iterations(steps);
      for i := 0 to n
        invariant current == Iterate(start, i, kernel)
        invariant current == State(Point(x, y, z), currPx, currPy)
        invariant path == Positions(start, i + 1, kernel)
        invariant Plotted(xs, ys, zs, path)
      {
        var dPhi := TurnAngle(omega, dt);
        var turned := Turn(currPx, currPy, num.cos(dPhi), num.sin(dPhi));
        currPx, currPy := turned.0, turned.1;
        x, y, z := Advance(x, currPx, E, dt), Advance(y, currPy, E, dt), Advance(z, currPz, E, dt);
        xs, ys, zs := xs + [x], ys + [y], zs + [z];
        current := Step(current, kernel);
        path := path + [current.pos];
      }
      AxialDrift(start, n, kernel);
      forall i | 0 <= i < |xs|
        ensures Point(xs[i], ys[i], zs[i]) == Iterate(start, i, kernel).pos
      {
        PositionsAt(start, n + 1, kernel, i);
      }
      forall i | 0 <= i < |zs| - 1
        ensures zs[i + 1] == zs[i] + Displacement(pz, E, dt)
      {
        AxialStep(start, i, kernel);
      }
    }
  }

  /** One collision: an id, its particles in insertion order, and the cached mass of the leading pair. */
  class Event {
    var id: int
    var particles: seq<Particle>
    var invariantMass: real

    constructor (eventId: int)
      ensures id == eventId && particles == [] && invariantMass == 0.0
    {
      id, particles, invariantMass := eventId, [], 0.0;
    }

    /** Appends at the end; earlier particles keep their places. */
    method AddParticle(particle: Particle)
      modifies this`particles
      ensures particles == old(particles) + [particle]
      ensures forall i :: 0 <= i < |old(particles)| ==> particles[i] == old(particles)[i]
    {
      particles := particles + [particle];
    }

    /** The mass `CalculateInvariantMass` returns: that of the first two particles, or 0.0 with fewer. */
    function LeadingPairMass(num: Primitives): (m: real)
      reads this, particles
      requires IsSqrt(num.sqrt)
      ensures 0.0 <= m
      ensures |particles| < 2 ==> m == 0.0
    {
      if |particles| < 2 then 0.0 else PairMass(num, particles[0].Momentum(), particles[1].Momentum())
    }

    /**
     * With fewer than two particles: 0.0, and the cache is left alone. Otherwise
     * the mass of the first two particles, which is also stored in the cache.
     */
    method CalculateInvariantMass(num: Primitives) returns (m: real)
      requires IsSqrt(num.sqrt)
      modifies this`invariantMass
      ensures |particles| < 2 ==> m == 0.0 && invariantMass == old(invariantMass)
      ensures 2 <= |particles| ==>
                m == PairMass(num, particles[0].Momentum(), particles[1].Momentum()) && invariantMass == m
      ensures m == LeadingPairMass(num)
    {
      if |particles| < 2 {
        return 0.0;
      }
      var p1 := particles[0];
      var p2 := particles[1];
      var eTot := p1.E + p2.E;
      var pxTot := p1.px + p2.px;
      var pyTot := p1.py + p2.py;
      var pzTot := p1.pz + p2.pz;
      var m2 := eTot * eTot - (pxTot * pxTot + pyTot * pyTot + pzTot * pzTot);
      assert m2 == MassSquared(Sum(p1.Momentum(), p2.Momentum()));
      invariantMass := num.sqrt(Max(0.0, m2));
      m := invariantMass;
    }
  }

  /** Asking an event for its mass twice gives the same answer: particles are never touched. */
  method RecalculatedMassAgrees(num: Primitives, event: Event) returns (first: real, second: real)
    requires IsSqrt(num.sqrt)
    modifies event`invariantMass
    ensures first == second
  {
    first := event.CalculateInvariantMass(num);
    second := event.CalculateInvariantMass(num);
  }

  /** One tabulated record: the event number and the two muons' E, px, py, pz and charge. */
  datatype Row = Row(event: int,
                     e1: real, px1: real, py1: real, pz1: real, q1: int,
                     e2: real, px2: real, py2: real, pz2: real, q2: int)

  /** The loader reads at most this many rows. */
  const MaxRows: nat := 1000

  /** `event` is what the loader builds from `row`: its id and exactly its two muons, in column order. */
  ghost predicate BuiltFrom(event: Event, row: Row)
    reads event, event.particles
  {
    && event.id == row.event
    && |event.particles| == 2
    && event.invariantMass == 0.0
    && event.particles[0].Holds(row.e1, row.px1, row.py1, row.pz1, row.q1)
    && event.particles[1].Holds(row.e2, row.px2, row.py2, row.pz2, row.q2)
  }

  /** One row's event: a new event with the row's id and two new particles from its two column groups. */
  method EventFromRow(row: Row) returns (event: Event)
    ensures BuiltFrom(event, row) && |event.particles| == 2
    ensures fresh(event) && fresh(event.particles[0]) && fresh(event.particles[1])
    ensures event.particles[0] != event.particles[1]
  {
    event := new Event(row.event);
    var p1 := new Particle(row.e1, row.px1, row.py1, row.pz1, row.q1);
    var p2 := new Particle(row.e2, row.px2, row.py2, row.pz2, row.q2);
    event.AddParticle(p1);
    event.AddParticle(p2);
  }

  /**
   * Maps the first (at most) 1000 rows, in order, to events of two new
   * particles each; no particle is shared between events.
   */
  method LoadCernData(rows: seq<Row>) returns (events: seq<Event>)
    ensures |events| == if |rows| < MaxRows then |rows| else MaxRows
    ensures forall k :: 0 <= k < |events| ==> BuiltFrom(events[k], rows[k]) && |events[k].particles| == 2
    ensures forall k :: 0 <= k < |events| ==>
              fresh(events[k]) && fresh(events[k].particles[0]) && fresh(events[k].particles[1])
    ensures forall k :: 0 <= k < |events| ==> events[k].particles[0] != events[k].particles[1]
    ensures forall j, k :: 0 <= j < k < |events| ==>
              events[j] != events[k] && {events[j].particles[0], events[j].particles[1]}
                                        !! {events[k].particles[0], events[k].particles[1]}
  {
    events := [];
    var count := if |rows| < MaxRows then |rows| else MaxRows;
    for i := 0 to count
      invariant |events| == i
      invariant forall k :: 0 <= k < i ==> BuiltFrom(events[k], rows[k]) && |events[k].particles| == 2
      invariant forall k :: 0 <= k < i ==>
                  fresh(events[k]) && fresh(events[k].particles[0]) && fresh(events[k].particles[1])
      invariant forall k :: 0 <= k < i ==> events[k].particles[0] != events[k].particles[1]
      invariant forall j, k :: 0 <= j < k < i ==>
                  events[j] != events[k] && {events[j].particles[0], events[j].particles[1]}
                                            !! {events[k].particles[0], events[k].particles[1]}
    {
      var event := EventFromRow(rows[i]);
      events := events + [event];
    }
  }
}
