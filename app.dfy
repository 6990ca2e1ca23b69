/**
 * The event viewer's logic, without its widgets: which resonance a dimuon
 * mass is read as, the track drawn for each muon inside the detector volume,
 * and moving through the loaded events one at a time.
 */
module App {
  import opened Numerics
  import opened Trajectory
  import opened PhysicsEngine

  datatype Option<T> = None | Some(value: T)

  /** The resonance a dimuon mass is read as. */
  datatype Candidate = JPsiMeson | UpsilonMeson | ZBoson | Background
  {
    /** The name shown in the info panel. */
    function Label(): string
    {
      match this
      case JPsiMeson => "J/Psi Meson"
      case UpsilonMeson => "Upsilon Meson"
      case ZBoson => "Z Boson"
      case Background => "Unknown / Background"
    }
  }

  /**
   * The mass windows, in GeV, are open intervals tried in order; a mass in
   * none of them is background. The windows do not overlap, so the order never
   * matters and each window is recognised exactly by its own bounds.
   */
  function Classify(mass: real): (c: Candidate)
    ensures c == JPsiMeson <==> 2.8 < mass < 3.4
    ensures c == UpsilonMeson <==> 9.0 < mass < 10.5
    ensures c == ZBoson <==> 80.0 < mass < 100.0
    ensures c == Background <==> !(2.8 < mass < 3.4) && !(9.0 < mass < 10.5) && !(80.0 < mass < 100.0)
  {
    if 2.8 < mass < 3.4 then JPsiMeson
    else if 9.0 < mass < 10.5 then UpsilonMeson
    else if 80.0 < mass < 100.0 then ZBoson
    else Background
  }

  /** The four labels are different, so the panel always tells the candidates apart. */
  lemma LabelsDistinct(a: Candidate, b: Candidate)
    requires a != b
    ensures a.Label() != b.Label()
  {
    match a
    case JPsiMeson => assert a.Label()[0] == 'J';
    case UpsilonMeson => assert a.Label()[0] == 'U';
    case ZBoson => assert a.Label()[0] == 'Z';
    case Background => assert a.Label()[1] == 'n';
  }

  /** The windows are open: a mass exactly on one of their edges is background. */
  lemma WindowEdgesAreBackground(mass: real)
    requires mass in [2.8, 3.4, 9.0, 10.5, 80.0, 100.0]
    ensures Classify(mass) == Background
  {
  }

  /** The nominal masses of the three resonances fall in their own windows. */
  lemma NominalMassesRecognised()
    ensures Classify(3.09) == JPsiMeson && Classify(9.46) == UpsilonMeson && Classify(91.2) == ZBoson
    ensures Classify(50.0) == Background
  {
  }

  /** Time step, in seconds, of a drawn track. */
  const TrackDt: real := 0.1
  /** Largest number of points a drawn track holds. */
  const TrackSteps: nat := 1000
  /** Radius, in metres, of the volume a drawn track stays inside. */
  const DetectorLimit: real := 9.0
  /** Half-length, in metres along the beam, of that volume. */
  const HalfLength: real := 15.0

  /** A point is inside the drawn detector volume: within the radius and within the half-length. */
  ghost predicate InsideDetector(q: Point)
  {
    RadiusSquared(q.x, q.y) <= DetectorLimit * DetectorLimit && Abs(q.z) <= HalfLength
  }

  /**
   * `path` is the track drawn from `start` along the kernel `k`: the longest
   * run of the kernel's positions that stays inside the detector, capped at
   * `TrackSteps` points. A point is checked before it is kept, so the first
   * point outside is never drawn.
   */
  ghost predicate IsDetectorTrack(start: State, k: Kernel, path: seq<Point>)
    requires k.e != 0.0
  {
    && |path| <= TrackSteps
    && path == Positions(start, |path|, k)
    && (forall i :: 0 <= i < |path| ==> InsideDetector(path[i]))
    && (|path| < TrackSteps ==> !InsideDetector(Iterate(start, |path|, k).pos))
  }

  /**
   * The track is determined by its start and kernel: two paths that both
   * meet `IsDetectorTrack` are the same path.
   */
  lemma DetectorTrackUnique(start: State, k: Kernel, a: seq<Point>, b: seq<Point>)
    requires k.e != 0.0
    requires IsDetectorTrack(start, k, a) && IsDetectorTrack(start, k, b)
    ensures a == b
  {
    if |a| < |b| {
      PositionsAt(start, |b|, k, |a|);
    } else if |b| < |a| {
      PositionsAt(start, |a|, k, |b|);
    }
  }

  /** The track of particle `p` as the viewer draws it: from the origin, in the solenoid field. */
  ghost predicate IsTrackOf(num: Primitives, p: Particle, path: seq<Point>)
    reads p
    requires p.E != 0.0
  {
    IsDetectorTrack(State(Origin, p.px, p.py), KernelFor(num, SolenoidField, p.charge, p.E, p.pz, TrackDt), path)
  }

  /** What the viewer shows for one event: its mass, the candidate that mass is read as, and one track per muon. */
  datatype Display = Display(mass: real, candidate: Candidate, tracks: seq<seq<Point>>)

  /** Every muon of `event` has non-zero energy, so each of its tracks can be computed. */
  ghost predicate Drawable(event: Event)
    reads event, event.particles
  {
    forall p <- event.particles :: p.E != 0.0
  }

  /**
   * `d` is what the viewer puts on screen for `event`: the mass of its
   * leading pair, the candidate that mass is read as, and the detector track
   * of each muon, in order.
   */
  ghost predicate Shows(num: Primitives, event: Event, d: Display)
    reads event, event.particles
    requires IsSqrt(num.sqrt)
    requires Drawable(event)
  {
    && d.mass == event.LeadingPairMass(num)
    && d.candidate == Classify(d.mass)
    && |d.tracks| == |event.particles|
    && forall i :: 0 <= i < |event.particles| ==> IsTrackOf(num, event.particles[i], d.tracks[i])
  }

  /** The viewer: the loaded events and the index of the one on screen. */
  class Viewer {
    var events: seq<Event>
    var currentIndex: int

    /** The index on screen names a loaded event, unless nothing was loaded. */
    ghost predicate Valid()
      reads this
    {
      events == [] || 0 <= currentIndex < |events|
    }

    /** A viewer over the loaded events, showing the first. */
    constructor (loaded: seq<Event>)
      ensures events == loaded && currentIndex == 0
      ensures Valid()
    {
      events := loaded;
      currentIndex := 0;
    }

    /**
     * The track of `p`, starting at the origin whatever the particle's own
     * position, and stopping before the first point farther than
     * `DetectorLimit` from the beam or `HalfLength` along it. Nothing is
     * changed.
     */
    method CalculatePath(p: Particle, num: Primitives) returns (path: seq<Point>)
      requires p.E != 0.0
      requires IsSqrt(num.sqrt)
      ensures 1 <= |path| && path[0] == Origin
      ensures IsTrackOf(num, p, path)
      ensures forall i :: 0 <= i < |path| - 1 ==> path[i + 1].z == path[i].z + Displacement(p.pz, p.E, TrackDt)
    {
      var dt, steps, detectorLimit := TrackDt, TrackSteps, DetectorLimit;
      path := [];
      var x, y, z := 0.0, 0.0, 0.0;
      var px, py, pz := p.px, p.py, p.pz;
      var omega := Omega(SolenoidField, p.charge, p.E);
      ghost var start := State(Origin, px, py);
      ghost var kernel := KernelFor(num, SolenoidField, p.charge, p.E, pz, dt);
      ghost var current := start;
      for i := 0 to steps
        invariant current == Iterate(start, i, kernel)
        invariant current == State(Point(x, y, z), px, py)
        invariant path == Positions(start, i, kernel)
        invariant forall j :: 0 <= j < i ==> InsideDetector(path[j])
      {
        SqrtExceeds(num.sqrt, RadiusSquared(x, y), detectorLimit);
        if num.sqrt(RadiusSquared(x, y)) > detectorLimit || Abs(z) > HalfLength {
          break;
        }
        path := path + [Point(x, y, z)];
        var dPhi := TurnAngle(omega, dt);
        var turned := Turn(px, py, num.cos(dPhi), num.sin(dPhi));
        px, py := turned.0, turned.1;
        x, y, z := Advance(x, px, p.E, dt), Advance(y, py, p.E, dt), Advance(z, pz, p.E, dt);
        current := Step(current, kernel);
      }
      forall i | 0 <= i < |path| - 1
        ensures path[i + 1].z == path[i].z + Displacement(p.pz, p.E, TrackDt)
      {
        PositionsAt(start, |path|, kernel, i);
        PositionsAt(start, |path|, kernel, i + 1);
        AxialStep(start, i, kernel);
      }
    }

    /**
     * An index outside the loaded events is ignored: nothing changes and
     * nothing is shown. Otherwise that event goes on screen: its index is
     * remembered, its mass is computed (and, with two or more muons, cached
     * by the event), the mass is classified, and one track is drawn per muon,
     * in order.
     */
    method ShowEvent(index: int, num: Primitives) returns (shown: Option<Display>)
      requires IsSqrt(num.sqrt)
      requires 0 <= index < |events| ==> Drawable(events[index])
      modifies this`currentIndex, (if 0 <= index < |events| then {events[index]} else {})`invariantMass
      ensures !(0 <= index < |events|) ==> shown == None && currentIndex == old(currentIndex)
      ensures 0 <= index < |events| ==> currentIndex == index && shown.Some?
      ensures shown.Some? ==> Drawable(events[currentIndex]) && Shows(num, events[currentIndex], shown.value)
      ensures 0 <= index < |events| ==>
                events[index].invariantMass
                  == if 2 <= |events[index].particles| then shown.value.mass else old(events[index].invariantMass)
      ensures old(Valid()) ==> Valid()
    {
      if index < 0 || index >= |events| {
        return None;
      }
      currentIndex := index;
      var event := events[index];
      var mass := event.CalculateInvariantMass(num);
      var tracks: seq<seq<Point>> := [];
      for i := 0 to |event.particles|
        invariant currentIndex == index
        invariant event.invariantMass == if 2 <= |event.particles| then mass else old(event.invariantMass)
        invariant |tracks| == i
        invariant forall j :: 0 <= j < i ==> IsTrackOf(num, event.particles[j], tracks[j])
      {
        var track := CalculatePath(event.particles[i], num);
        tracks := tracks + [track];
      }
      shown := Some(Display(mass, Classify(mass), tracks));
    }

    /** Steps forward one event; at the last event nothing changes. */
    method NextEvent(num: Primitives) returns (shown: Option<Display>)
      requires IsSqrt(num.sqrt)
      requires 0 <= currentIndex + 1 < |events| ==> Drawable(events[currentIndex + 1])
      modifies this`currentIndex, (if 0 <= currentIndex + 1 < |events| then {events[currentIndex + 1]} else {})`invariantMass
      ensures currentIndex == if 0 <= old(currentIndex) + 1 < |events| then old(currentIndex) + 1 else old(currentIndex)
      ensures shown.Some? <==> 0 <= old(currentIndex) + 1 < |events|
      ensures shown.Some? ==> Drawable(events[currentIndex]) && Shows(num, events[currentIndex], shown.value)
      ensures var i := old(currentIndex) + 1;
              0 <= i < |events| ==>
                events[i].invariantMass
                  == if 2 <= |events[i].particles| then shown.value.mass else old(events[i].invariantMass)
      ensures old(Valid()) ==> Valid()
    {
      shown := ShowEvent(currentIndex + 1, num);
    }

    /** Steps back one event; at the first event nothing changes. */
    method PrevEvent(num: Primitives) returns (shown: Option<Display>)
      requires IsSqrt(num.sqrt)
      requires 0 <= currentIndex - 1 < |events| ==> Drawable(events[currentIndex - 1])
      modifies this`currentIndex, (if 0 <= currentIndex - 1 < |events| then {events[currentIndex - 1]} else {})`invariantMass
      ensures currentIndex == if 0 <= old(currentIndex) - 1 < |events| then old(currentIndex) - 1 else old(currentIndex)
      ensures shown.Some? <==> 0 <= old(currentIndex) - 1 < |events|
      ensures shown.Some? ==> Drawable(events[currentIndex]) && Shows(num, events[currentIndex], shown.value)
      ensures var i := old(currentIndex) - 1;
              0 <= i < |events| ==>
                events[i].invariantMass
                  == if 2 <= |events[i].particles| then shown.value.mass else old(events[i].invariantMass)
      ensures old(Valid()) ==> Valid()
    {
      shown := ShowEvent(currentIndex - 1, num);
    }
  }
}
