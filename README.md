# cmsEmulator physics core, modelled in Dafny

cmsEmulator reads dimuon collision records from a CMS open-data table and
turns each one into an event of two muons. It computes the pair's invariant
mass and reads that mass as a J/Psi, an Upsilon, a Z boson or background.
It also draws each muon's track as it curls in the detector's 3.8 T solenoid
field. This project models that core over the reals:

- `numerics.dfy` (module `Numerics`): the numpy primitives `sqrt`, `cos`
  and `sin`. They are passed around as function values in a `Primitives`
  datatype. `IsSqrt` and `IsUnitCircle` state the properties the proofs rely
  on, and Python's `max` and `abs` are modelled here too.
- `trajectory.dfy` (module `Trajectory`): the stepping kernel that all three
  track loops of the program share. Each step turns (px, py) by
  `0.3 * B * charge / E * dt` and then advances x, y and z by momentum over
  energy times `dt`. `Step` and `Iterate` define the run once. Each of the
  three loops is proved equal, point by point, to `Iterate`. The lemmas about
  `Iterate` then hold for all three: z drifts linearly, the transverse
  momentum keeps its length, and without field or charge the track is
  straight.
- `physics_engine.dfy` (module `PhysicsEngine`):
  - the `Particle` class: its fields, `Mass` and the in-place `Propagate`;
  - the `Event` class: its particle list, `AddParticle` and the cached
    `CalculateInvariantMass`;
  - `LoadCernData`: the loader's mapping from rows to events.
- `app.dfy` (module `App`):
  - the resonance windows (`Classify`);
  - the viewer's detector-bounded track (`CalculatePath`);
  - moving through events (`ShowEvent`, `NextEvent`, `PrevEvent`) on a
    `Viewer` class that holds the loaded events and the index on screen.
- `visual_test.dfy` (module `VisualTest`): the plotting script's loop. It
  starts at the particle's own position, stops at the first point past a
  7.5 m wall, and keeps that point.

## Model

| member | source | states |
|---|---|---|
| Numerics.ClampedSqrt | physics_engine.py:19 | `sqrt(max(0, v))` is non-negative, squares back to `max(0, v)`, and is zero exactly when `v <= 0` |
| Numerics.SqrtExceeds | src/app.py:248 | the radius test `sqrt(x^2 + y^2) > limit` holds exactly when `x^2 + y^2 > limit^2`; the plotting loop uses the same test, at src/visual_test.py lines 45-46 |
| Trajectory.KernelRotates | physics_engine.py:47-50 | the per-step turn uses a cosine and sine on the unit circle, so it is a rotation |
| Trajectory.NoFieldNoTurn | physics_engine.py:42-50 | with zero field or zero charge the turn angle is zero: cosine 1, sine 0 |
| Trajectory.Positions | physics_engine.py:26-63 | a run's list of positions has one entry per point and starts at the start position |
| Trajectory.PositionsAt | physics_engine.py:44-63 | the i-th recorded position is the one reached after i steps |
| Trajectory.AxialStep | physics_engine.py:59 | every step moves z by exactly `(pz / E) * dt` |
| Trajectory.AxialDrift | physics_engine.py:44-59 | after n steps z has moved by `n * (pz / E) * dt` |
| Trajectory.StepKeepsLength | physics_engine.py:49-53 | one rotation keeps `px^2 + py^2` |
| Trajectory.TransverseMomentumKept | physics_engine.py:44-53 | the field changes the direction of the transverse momentum, never its size, over any number of steps |
| Trajectory.StraightLine | physics_engine.py:42-59 | without rotation the momentum never turns and the position moves on a straight line |
| Trajectory.FieldKeepsTransverseMomentum | physics_engine.py:42-53 | for a kernel built from any field and charge, `px^2 + py^2` is the same after any number of steps |
| Trajectory.NoFieldStraightTrack | physics_engine.py:42-59 | with zero field or zero charge, the kernel's run keeps px and py, and each coordinate drifts by `n * (p / E) * dt` |
| PhysicsEngine.InvariantMass | physics_engine.py:17-19 | the mass is non-negative, squares to `max(0, E^2 - (px^2 + py^2 + pz^2))`, and is zero exactly when `E^2 <= px^2 + py^2 + pz^2` |
| PhysicsEngine.PairMass | physics_engine.py:84-91 | the pair mass is non-negative and squares to the larger of 0 and `(E1 + E2)^2` minus the squared length of `p1 + p2` |
| PhysicsEngine.PairMassSymmetric | physics_engine.py:81-91 | swapping the two particles leaves the pair mass unchanged |
| PhysicsEngine.ExamplePairMass | physics_engine.py:84-91 | a worked pair (E 20 and 18) has mass squared 1433 and a positive mass |
| PhysicsEngine.Particle.constructor | physics_engine.py:6-15 | a new particle keeps the given energy, momentum and charge and sits at the origin |
| PhysicsEngine.Particle.Mass | physics_engine.py:17-19 | the particle's mass is `sqrt(max(0, E^2 - (px^2 + py^2 + pz^2)))`: non-negative, zero exactly when `E^2 <= px^2 + py^2 + pz^2` |
| PhysicsEngine.Particle.Propagate | physics_engine.py:21-65 | returns `steps + 1` points (one for negative steps), starting at the old position, each equal to the kernel's run; only x, y, z change, and they end at the last point; z steps by `(pz / E) * dt` and ends `steps * (pz / E) * dt` from where it began |
| PhysicsEngine.Event.constructor | physics_engine.py:69-72 | a new event has the given id, no particles and a cached mass of 0.0 |
| PhysicsEngine.Event.AddParticle | physics_engine.py:74-75 | the particle is appended and earlier particles keep their places |
| PhysicsEngine.Event.LeadingPairMass | physics_engine.py:77-92 | the event's mass is non-negative and 0.0 with fewer than two particles |
| PhysicsEngine.Event.CalculateInvariantMass | physics_engine.py:77-92 | fewer than two particles: 0.0, cache untouched; otherwise the mass of the first two particles, also stored in the cache |
| PhysicsEngine.RecalculatedMassAgrees | physics_engine.py:77-92 | computing an event's mass twice gives the same value |
| PhysicsEngine.EventFromRow | physics_engine.py:104-111 | one row becomes a new event with the row's id and two new, distinct particles from its two column groups |
| PhysicsEngine.LoadCernData | physics_engine.py:96-114 | `min(1000, rows)` events in row order, each built from its row with exactly two particles; no particle is shared between events |
| App.Classify | src/app.py:170-206 | J/Psi exactly on (2.8, 3.4), Upsilon exactly on (9.0, 10.5), Z exactly on (80, 100), background exactly outside all three |
| App.LabelsDistinct | src/app.py:170-206 | different candidates are shown with different names |
| App.WindowEdgesAreBackground | src/app.py:181-206 | a mass on a window edge is background |
| App.NominalMassesRecognised | src/app.py:181-206 | 3.09, 9.46 and 91.2 GeV land in their own windows; 50 GeV is background |
| App.DetectorTrackUnique | src/app.py:238-257 | the detector-bounded track is determined by its start and kernel |
| App.Viewer.constructor | src/app.py:80-81 | the viewer starts at index 0 of the loaded events |
| App.Viewer.CalculatePath | src/app.py:238-257 | starts at the origin; at most 1000 points, each the kernel's run and each inside radius 9 and half-length 15; stops exactly before the first point outside; z steps by `(pz / E) * 0.1`; changes nothing |
| App.Viewer.ShowEvent | src/app.py:148-166 | an index outside the events changes nothing; otherwise the index is set, the event's mass, its classification and one track per muon are shown, and the event's cache holds that mass when it has two or more muons (otherwise it is unchanged); a valid index stays valid |
| App.Viewer.NextEvent | src/app.py:232-233 | moves to the next event, or stays put at the last one; when it moves, it shows that event's mass, classification and tracks and caches the mass as `ShowEvent` does; a valid index stays valid |
| App.Viewer.PrevEvent | src/app.py:235-236 | moves to the previous event, or stays put at the first one; when it moves, it shows that event's mass, classification and tracks and caches the mass as `ShowEvent` does; a valid index stays valid |
| VisualTest.TracePath | src/visual_test.py:27-64 | starts at the particle's position; at most 2001 points, each the kernel's run; every point but the last is within 7.5 m of the beam; a track cut short ends at its first point past the wall; no bound along z; z steps by `(pz / E) * 0.1`; changes nothing |

## Left out

- Floating point: every quantity is a mathematical real, so rounding, NaN and infinity are not modelled.
- numpy's `sqrt`, `cos` and `sin` are parameters, not definitions. Each proof relies only on `IsSqrt` (the non-negative root squares back) or `IsUnitCircle`.
- Division by a zero energy: each member that divides by `E` requires `E != 0`. The code divides unguarded, and no error path is modelled.
- The CSV read (`pandas.read_csv`, `iterrows`) is modelled as a sequence of already-typed `Row` values; the 1000-row cap is modelled by `MaxRows`. The `Event` column's `int(...)` conversion is the row's integer field.
- The viewer's widgets, the HTML info text with its colours and descriptions, the detector drawing, the histogram and the mass marker are not modelled. `ShowEvent` returns what would be drawn as a `Display` value.
- `load_data` is not modelled: it computes every event's mass for the histogram and catches load errors. The `Viewer` constructor receives the loaded events.
- matplotlib plotting, the event chosen by the plotting script, and its printing are not modelled. `TracePath` models the loop that builds one track.
- `src/data_manager.py` (remote download) and `src/main.py` (start-up) are not part of this model.
- The speed-of-light constant `c` in `propagate` is never used, so it is not modelled.
- `calculate_path` returns an `np.array`; the model returns a sequence of `Point` values.
- The source has three separate stepping loops and no shared bounded integrator. No confidence tier is attached to a classification, and a zero energy is not turned into a dedicated error. The model follows that code.
