/** The frame-driven state of frontend/js/main.js: the meteor bodies, the impact run in
    progress, the simulation clock, the time scale and the pause flag, with the operations
    that change them (createMeteoriteObjects, the time controls, updateMeteorMovement,
    triggerImpact and updateImpactAnimation). */
module Simulation {
  import opened Common
  import opened Elementary
  import opened Vectors
  import opened Orbit
  import Physics

  /** The part of a near-Earth object record that the scene uses. */
  datatype NeoSummary = NeoSummary(id: string, diameterMinMeters: real, diameterMaxMeters: real, missDistanceKm: real)

  /** The five Math.random() draws createMeteoriteObjects makes for one body, in call order. */
  datatype Draws = Draws(eccentricity: real, rotation: real, inclination: real, phase: real, speed: real)

  predicate DrawsInRange(d: Draws) {
    && 0.0 <= d.eccentricity < 1.0 && 0.0 <= d.rotation < 1.0 && 0.0 <= d.inclination < 1.0
    && 0.0 <= d.phase < 1.0 && 0.0 <= d.speed < 1.0
  }

  /** The animatingMeteor record: which body (its index in the meteor list, standing for the
      mesh reference), the chosen velocity, the descent path, the progress along it and the
      base speed. */
  datatype Run = Run(slot: nat, velocity: real, path: seq<Vec3>, pathProgress: real, baseSpeed: real)

  /** triggerImpact always draws a path of this many segments. */
  const ImpactPathSegments: nat := 100

  /** What one updateImpactAnimation frame did: nothing (no run), moved the body, finished
      the run with an impact report request, or threw because the path index was negative. */
  datatype Frame = NoRun | Moved | Impact(diameterMeters: real, velocity: real) | Threw

  /** createMeteoriteObjects for one object: the average diameter, the periapsis beyond the
      Earth, the drawn orbit, the initial angle in the first quarter of the visible arc, and
      the mesh moved onto the orbit. */
  function NewBody(f: Functions, neo: NeoSummary, d: Draws): (b: Body)
    requires DrawsInRange(d)
    ensures b.id == neo.id && WellFormed(b)
  {
    Placed(f, DrawnBody(f, neo, d))
  }

  /** The body createMeteoriteObjects builds, before its mesh is moved onto the orbit. */
  function DrawnBody(f: Functions, neo: NeoSummary, d: Draws): Body
    requires DrawsInRange(d)
  {
    var avgDiameter := (neo.diameterMinMeters + neo.diameterMaxMeters) / 2.0;
    var periapsis := Physics.ScaleDistance(f, neo.missDistanceKm) + EarthVisualRadius(f) + 0.5;
    var eccentricity := 1.5 + d.eccentricity * 1.0;
    var orbitRotation := d.rotation * PI * 2.0;
    var inclination := (d.inclination - 0.5) * PI * 0.6;
    var maxAngle := MaxAngle(f, eccentricity);
    var initialAngle := InitialAngle(maxAngle, d.phase);
    Body(neo.id, avgDiameter, periapsis, eccentricity, orbitRotation, inclination,
         initialAngle, initialAngle, 0.01 + d.speed * 0.02, Origin)
  }

  /** A body the orbital tick keeps sane: a hyperbolic orbit with a non-negative periapsis and
      speed, whose current and initial angles both lie on the visible arc. */
  predicate OnArc(f: Functions, b: Body) {
    && WellFormed(b)
    && b.periapsis >= 0.0
    && b.baseAngularSpeed >= 0.0
    && -MaxAngle(f, b.eccentricity) <= b.trueAnomaly <= MaxAngle(f, b.eccentricity)
    && -MaxAngle(f, b.eccentricity) <= b.initialTrueAnomaly <= MaxAngle(f, b.eccentricity)
  }

  /** A body as createMeteoriteObjects draws it: at its initial angle, in the first quarter of
      the visible arc, with eccentricity in [1.5, 2.5), angular speed in [0.01, 0.03) and
      periapsis at least 4 + 1.6 + 0.5 scene units. */
  predicate FreshlyDrawn(f: Functions, b: Body) {
    && b.trueAnomaly == b.initialTrueAnomaly
    && 1.5 <= b.eccentricity < 2.5
    && 0.01 <= b.baseAngularSpeed < 0.03
    && b.periapsis >= 6.1
    && -MaxAngle(f, b.eccentricity) <= b.initialTrueAnomaly < -MaxAngle(f, b.eccentricity) / 2.0
    && OnArc(f, b)
  }

  /** Every body createMeteoriteObjects adds is freshly drawn and carries the object's id. */
  lemma NewBodyStartsOnArc(f: Functions, neo: NeoSummary, d: Draws)
    requires AcosLaws(f) && LogLaws(f)
    requires DrawsInRange(d)
    ensures NewBody(f, neo, d).id == neo.id
    ensures FreshlyDrawn(f, NewBody(f, neo, d))
  {
    var raw := DrawnBody(f, neo, d);
    DrawnBodyStartsOnArc(f, neo, d);
    var b := NewBody(f, neo, d);
    assert b.(position := raw.position) == raw;
  }

  lemma DrawnBodyStartsOnArc(f: Functions, neo: NeoSummary, d: Draws)
    requires AcosLaws(f) && LogLaws(f)
    requires DrawsInRange(d)
    ensures FreshlyDrawn(f, DrawnBody(f, neo, d))
  {
    DrawnAngleOnArc(f, neo, d);
    Physics.ScaleDistanceClampsThenGrows(f, neo.missDistanceKm, neo.missDistanceKm);
    EarthVisualRadiusValue(f);
  }

  /** The drawn angle is in the first quarter of the visible arc. */
  lemma DrawnAngleOnArc(f: Functions, neo: NeoSummary, d: Draws)
    requires AcosLaws(f)
    requires DrawsInRange(d)
    ensures var raw := DrawnBody(f, neo, d);
            var m := MaxAngle(f, raw.eccentricity);
            && m > 0.0
            && raw.trueAnomaly == raw.initialTrueAnomaly
            && -m <= raw.initialTrueAnomaly < -m / 2.0
  {
    var raw := DrawnBody(f, neo, d);
    var e := 1.5 + d.eccentricity * 1.0;
    assert raw.eccentricity == e;
    MaxAnglePositive(f, e);
    assert raw.initialTrueAnomaly == InitialAngle(MaxAngle(f, e), d.phase);
  }

  /** The drawn initial angle -maxAngle + phase·maxAngle/2: for a draw in [0, 1) it lies in the
      first quarter [-maxAngle, -maxAngle/2) of the visible arc. */
  function InitialAngle(maxAngle: real, phase: real): (r: real)
    ensures maxAngle > 0.0 && 0.0 <= phase < 1.0 ==> -maxAngle <= r < -maxAngle / 2.0
  {
    assert maxAngle > 0.0 && 0.0 <= phase < 1.0 ==> phase * maxAngle < 1.0 * maxAngle;
    -maxAngle + phase * maxAngle * 0.5
  }

  /** One body's orbital tick: advance the angle by speed·(1 + sqrt(p / max(r, 0.1)))·Δ, wrap
      past the end of the arc back to its start, then move the mesh onto the orbit. */
  function Advance(f: Functions, b: Body, adjustedDelta: real): (r: Body)
    requires WellFormed(b)
    ensures r.(trueAnomaly := b.trueAnomaly, position := b.position) == b
  {
    Placed(f, Turned(f, b, adjustedDelta))
  }

  /** The angle part of the tick, before the mesh is moved. */
  function Turned(f: Functions, b: Body, adjustedDelta: real): Body
    requires WellFormed(b)
  {
    var anomaly := b.trueAnomaly + AngleIncrement(f, b, adjustedDelta);
    var maxAngle := MaxAngle(f, b.eccentricity);
    b.(trueAnomaly := if anomaly > maxAngle then -maxAngle else anomaly)
  }

  /** The angle increment of one tick, before wrapping: the base speed, sped up by the square
      root of periapsis over the current distance (at least 0.1), times the scaled delta. */
  function AngleIncrement(f: Functions, b: Body, adjustedDelta: real): real {
    var currentR := Length(f, b.position);
    var speedFactor := f.sqrt(b.periapsis / Max(currentR, 0.1));
    b.baseAngularSpeed * (1.0 + speedFactor) * adjustedDelta
  }

  /** The tick moves a body forward by a non-negative increment and never past the end of
      the arc: either the angle grew by exactly the increment and stays within the arc, or
      it overshot and restarted at exactly -maxAngle.  Either way the body stays on the arc. */
  lemma AdvanceStaysOnArc(f: Functions, b: Body, adjustedDelta: real)
    requires SqrtLaws(f) && AcosLaws(f)
    requires OnArc(f, b) && adjustedDelta >= 0.0
    ensures AngleIncrement(f, b, adjustedDelta) >= 0.0
    ensures var r := Advance(f, b, adjustedDelta);
            var m := MaxAngle(f, b.eccentricity);
            && (|| (r.trueAnomaly == b.trueAnomaly + AngleIncrement(f, b, adjustedDelta) && r.trueAnomaly <= m)
                || (b.trueAnomaly + AngleIncrement(f, b, adjustedDelta) > m && r.trueAnomaly == -m))
            && OnArc(f, r)
  {
    var q := b.periapsis / Max(Length(f, b.position), 0.1);
    assert q >= 0.0;
    var s := f.sqrt(q);
    assert s >= 0.0;
    var k := b.baseAngularSpeed * (1.0 + s);
    assert k >= 0.0;
    assert AngleIncrement(f, b, adjustedDelta) == k * adjustedDelta;
    MaxAnglePositive(f, b.eccentricity);
  }

  /** Whether the run in progress is animating the body at index k. */
  predicate IsAnimating(run: Option<Run>, k: nat) {
    run.Some? && run.value.slot == k
  }

  predicate AllWellFormed(bodies: seq<Body>) {
    forall k :: 0 <= k < |bodies| ==> WellFormed(bodies[k])
  }

  /** Moving one body's mesh, or removing one body, keeps every body hyperbolic. */
  lemma MovingOrRemovingKeepsWellFormed(bodies: seq<Body>, slot: nat, position: Vec3)
    requires AllWellFormed(bodies) && slot < |bodies|
    ensures AllWellFormed(bodies[slot := bodies[slot].(position := position)])
    ensures AllWellFormed(RemoveAt(bodies, slot))
  {
  }

  /** updateMeteorMovement's effect on the bodies: every body advances except the one the
      run is animating. */
  function Tick(f: Functions, bodies: seq<Body>, run: Option<Run>, adjustedDelta: real): seq<Body>
    requires AllWellFormed(bodies)
  {
    seq(|bodies|, k requires 0 <= k < |bodies| =>
      if IsAnimating(run, k) then bodies[k] else Advance(f, bodies[k], adjustedDelta))
  }

  /** A tick with non-negative time keeps every body on its arc, leaves the animating body as
      it was, and changes no other body except in its angle and position. */
  lemma TickKeepsBodiesOnArc(f: Functions, bodies: seq<Body>, run: Option<Run>, adjustedDelta: real)
    requires SqrtLaws(f) && AcosLaws(f)
    requires AllWellFormed(bodies) && forall k :: 0 <= k < |bodies| ==> OnArc(f, bodies[k])
    requires adjustedDelta >= 0.0
    ensures var r := Tick(f, bodies, run, adjustedDelta);
            && |r| == |bodies|
            && (forall k :: 0 <= k < |r| ==> OnArc(f, r[k]))
            && (forall k :: 0 <= k < |r| && IsAnimating(run, k) ==> r[k] == bodies[k])
            && (forall k :: 0 <= k < |r| ==> r[k].(trueAnomaly := bodies[k].trueAnomaly, position := bodies[k].position) == bodies[k])
  {
    var r := Tick(f, bodies, run, adjustedDelta);
    forall k | 0 <= k < |r|
      ensures OnArc(f, r[k])
    {
      if !IsAnimating(run, k) {
        AdvanceStaysOnArc(f, bodies[k], adjustedDelta);
      }
    }
  }

  /** The reset handler for one body: back to its initial angle, mesh moved onto the orbit. */
  function Rewind(f: Functions, b: Body): (r: Body)
    ensures r.trueAnomaly == b.initialTrueAnomaly
    ensures r.(trueAnomaly := b.trueAnomaly, position := b.position) == b
  {
    Placed(f, b.(trueAnomaly := b.initialTrueAnomaly))
  }

  /** The reset handler's effect on the bodies: every body, the animating one included, rewinds. */
  function ResetAll(f: Functions, bodies: seq<Body>): seq<Body> {
    seq(|bodies|, k requires 0 <= k < |bodies| => Rewind(f, bodies[k]))
  }

  /** Resetting twice is resetting once, and a reset keeps every body on its arc. */
  lemma ResetIdempotent(f: Functions, bodies: seq<Body>)
    ensures ResetAll(f, ResetAll(f, bodies)) == ResetAll(f, bodies)
    ensures (forall k :: 0 <= k < |bodies| ==> OnArc(f, bodies[k]))
            ==> forall k :: 0 <= k < |bodies| ==> OnArc(f, ResetAll(f, bodies)[k])
  {
    var once := ResetAll(f, bodies);
    forall k | 0 <= k < |bodies|
      ensures Rewind(f, once[k]) == once[k]
    {
      var b := bodies[k].(trueAnomaly := bodies[k].initialTrueAnomaly);
      assert once[k] == Placed(f, b);
      assert once[k].(position := b.position) == b;
      assert BodyPosition(f, once[k]) == BodyPosition(f, b);
    }
  }

  /** meteorites.find(m => m.userData.id === id), as an index. */
  function BodyIndex(bodies: seq<Body>, id: string): Option<nat> {
    FindFirst(bodies, (b: Body) => b.id == id)
  }

  /** The index of the first trajectory line drawn for the given body id. */
  function LineIndex(lines: seq<TrajectoryLine>, id: string): Option<nat> {
    FindFirst(lines, (l: TrajectoryLine) => l.meteorId == id)
  }

  /** A drawn trajectory curve, tagged with the id of its body. */
  datatype TrajectoryLine = TrajectoryLine(meteorId: string, points: seq<Vec3>)

  /** What createTrajectoryLine adds for a body: its visible samples, tagged with the body's
      id, when at least two are kept, and nothing otherwise. */
  function LineFor(f: Functions, b: Body): (r: seq<TrajectoryLine>)
    requires WellFormed(b)
    ensures |r| <= 1
    ensures forall line :: line in r ==> line.meteorId == b.id && |line.points| >= 2
  {
    var kept := VisibleSamples(f, b, TrajectoryPoints + 1);
    if |kept| < 2 then [] else [TrajectoryLine(b.id, kept)]
  }

  /** The lines createTrajectoryLine adds for the bodies, in the bodies' order. */
  function LinesOf(f: Functions, bodies: seq<Body>): seq<TrajectoryLine>
    requires AllWellFormed(bodies)
  {
    if |bodies| == 0 then []
    else
      var n := |bodies| - 1;
      LinesOf(f, bodies[..n]) + LineFor(f, bodies[n])
  }

  /** Appending a hyperbolic body keeps every body hyperbolic. */
  lemma AllWellFormedExtend(bodies: seq<Body>, b: Body)
    requires AllWellFormed(bodies) && WellFormed(b)
    ensures AllWellFormed(bodies + [b])
  {
  }

  /** One more body adds that body's line. */
  lemma LinesOfAppend(f: Functions, bodies: seq<Body>, b: Body)
    requires AllWellFormed(bodies) && WellFormed(b)
    ensures AllWellFormed(bodies + [b])
    ensures LinesOf(f, bodies + [b]) == LinesOf(f, bodies) + LineFor(f, b)
  {
    assert (bodies + [b])[..|bodies|] == bodies;
  }

  /** Every added line has at least two points and belongs to one of the bodies, there is at
      most one line per body, and every body whose sweep keeps two points gets a line that
      triggerImpact finds by the body's id. */
  lemma {:induction false} LinesOfBelongToBodies(f: Functions, bodies: seq<Body>)
    requires AllWellFormed(bodies)
    ensures |LinesOf(f, bodies)| <= |bodies|
    ensures forall j :: 0 <= j < |LinesOf(f, bodies)| ==>
              && |LinesOf(f, bodies)[j].points| >= 2
              && exists k :: 0 <= k < |bodies| && LinesOf(f, bodies)[j].meteorId == bodies[k].id
    ensures forall k :: 0 <= k < |bodies| && LineFor(f, bodies[k]) != [] ==>
              LineIndex(LinesOf(f, bodies), bodies[k].id).Some?
  {
    var n := |bodies|;
    if n > 0 {
      var front := bodies[..n - 1];
      LinesOfBelongToBodies(f, front);
      var prefix := LinesOf(f, front);
      var last := LineFor(f, bodies[n - 1]);
      var lines := LinesOf(f, bodies);
      assert lines == prefix + last;
      forall j | 0 <= j < |lines|
        ensures |lines[j].points| >= 2
        ensures exists k :: 0 <= k < n && lines[j].meteorId == bodies[k].id
      {
        if j < |prefix| {
          var k :| 0 <= k < |front| && prefix[j].meteorId == front[k].id;
          assert lines[j] == prefix[j] && front[k] == bodies[k];
        } else {
          assert lines[j] == last[0];
        }
      }
      forall k | 0 <= k < n && LineFor(f, bodies[k]) != []
        ensures LineIndex(lines, bodies[k].id).Some?
      {
        var j: nat;
        if k < n - 1 {
          assert front[k] == bodies[k];
          j := LineIndex(prefix, front[k].id).value;
          assert lines[j] == prefix[j];
        } else {
          j := |lines| - 1;
          assert lines[j] == last[0];
        }
        assert lines[j].meteorId == bodies[k].id;
      }
    }
  }

  /** The whole-frame speed-up near the Earth: 1 + 2 / max(distance, 0.5). */
  function SpeedMultiplier(f: Functions, position: Vec3): (r: real)
    ensures 1.0 < r <= 5.0
  {
    var d := Max(Length(f, position), 0.5);
    assert 0.0 < 1.0 / d <= 2.0 by {
      QuotientBounds(1.0, d, 0.0, 2.1);
      assert 1.0 / d * d == 1.0;
    }
    1.0 + (1.0 / d) * 2.0
  }

  /** The run's progress after one frame, the body being at the given position. */
  function Progressed(f: Functions, run: Run, position: Vec3, delta: real): real {
    run.pathProgress + run.baseSpeed * SpeedMultiplier(f, position) * delta
  }

  /** A frame with non-negative time never moves a run with non-negative speed backwards. */
  lemma ProgressNeverDecreases(f: Functions, run: Run, position: Vec3, delta: real)
    requires run.baseSpeed >= 0.0 && delta >= 0.0
    ensures Progressed(f, run, position, delta) >= run.pathProgress
  {
    var m := SpeedMultiplier(f, position);
    assert run.baseSpeed * m >= 0.0;
  }

  /** The point of the path at the given progress: the progress is clamped to 1, scaled to the
      path's segments, and the body is placed between the two bracketing points, or on the last
      point when the index reaches it.  A negative index makes the source read an undefined
      point and throw; that is None. */
  function PositionOnPath(path: seq<Vec3>, progress: real): (r: Option<Vec3>)
    requires |path| >= 1
    ensures r.None? <==> progress < 0.0 && |path| > 1
    ensures progress >= 1.0 ==> r == Some(path[|path| - 1])
  {
    var last := |path| - 1;
    var pathIndex := PathIndex(progress, last);
    assert progress < 0.0 && last > 0 ==> Min(progress, 1.0) * last as real < 0.0;
    assert progress >= 0.0 ==> Min(progress, 1.0) * last as real >= 0.0;
    if pathIndex < last then
      if pathIndex < 0 then None
      else Some(Lerp(path[pathIndex], path[pathIndex + 1], PathFraction(progress, last)))
    else Some(path[last])
  }

  /** The index of the path point at or before the given progress, clamped to 1, on a path of
      the given number of segments. */
  function PathIndex(progress: real, segments: nat): int {
    (Min(progress, 1.0) * segments as real).Floor
  }

  /** How far past point PathIndex the given progress lies, as a fraction of a segment. */
  function PathFraction(progress: real, segments: nat): real {
    Min(progress, 1.0) * segments as real - PathIndex(progress, segments) as real
  }

  /** At progress k / segments the body is exactly at path point k. */
  lemma PositionOnPathAtNode(path: seq<Vec3>, k: nat)
    requires |path| >= 2 && k < |path|
    ensures PositionOnPath(path, k as real / (|path| - 1) as real) == Some(path[k])
  {
    var last := |path| - 1;
    var progress := k as real / last as real;
    if k < last {
      QuotientBounds(k as real, last as real, 0.0, 1.0);
      PositionBetweenNodes(path, progress, k);
    } else {
      assert progress == 1.0;
    }
  }

  /** A progress below 1 that the path's scale maps exactly onto index k lands on point k. */
  lemma PositionBetweenNodes(path: seq<Vec3>, progress: real, k: nat)
    requires k < |path| - 1
    requires 0.0 <= progress < 1.0 && progress * (|path| - 1) as real == k as real
    ensures PositionOnPath(path, progress) == Some(path[k])
  {
    var last := |path| - 1;
    assert Min(progress, 1.0) == progress;
    assert PathIndex(progress, last) == k;
    assert PathFraction(progress, last) == 0.0;
  }

  /** The double arrival guard: the body has come within the Earth's visual radius, or the
      run's progress has reached 1. */
  predicate Arrived(f: Functions, position: Vec3, progress: real) {
    Length(f, position) < EarthVisualRadius(f) || progress >= 1.0
  }

  /** Once the progress reaches 1 the body sits on the path's last point and the run ends. */
  lemma FullProgressArrives(f: Functions, path: seq<Vec3>, progress: real)
    requires |path| >= 1 && progress >= 1.0
    ensures PositionOnPath(path, progress) == Some(path[|path| - 1])
    ensures Arrived(f, path[|path| - 1], progress)
  {
  }

  /** The state one updateImpactAnimation frame leaves behind: what happened, the bodies and
      the run. */
  datatype FrameResult = FrameResult(frame: Frame, bodies: seq<Body>, run: Option<Run>)

  /** One updateImpactAnimation frame with a run in progress: the progress grows, the body
      moves to the path point for it, and on arrival the body is removed and the run ends. */
  function AnimateFrame(f: Functions, bodies: seq<Body>, run: Run, delta: real): FrameResult
    requires run.slot < |bodies| && |run.path| >= 1
  {
    var body := bodies[run.slot];
    var progress := Progressed(f, run, body.position, delta);
    var advanced := run.(pathProgress := progress);
    match PositionOnPath(run.path, progress)
    case None => FrameResult(Threw, bodies, Some(advanced))
    case Some(pos) =>
      if Arrived(f, pos, progress)
      then FrameResult(Impact(body.diameterMeters, run.velocity), RemoveAt(bodies, run.slot), None)
      else FrameResult(Moved, bodies[run.slot := body.(position := pos)], Some(advanced))
  }

  /** A frame of a run that has not gone backwards, with non-negative speed and time, never
      throws.  It either ends the run, removing exactly the animated body and keeping the
      others in order and reporting that body's diameter with the run's velocity, or it
      keeps the run at a progress that has not decreased and is still below 1, moving only
      the animated body. */
  lemma AnimateFrameOutcomes(f: Functions, bodies: seq<Body>, run: Run, delta: real)
    requires run.slot < |bodies| && |run.path| >= 1
    requires run.pathProgress >= 0.0 && run.baseSpeed >= 0.0 && delta >= 0.0
    ensures var r := AnimateFrame(f, bodies, run, delta);
            && r.frame != Threw
            && (r.frame.Impact? ==>
                  && r.frame == Impact(bodies[run.slot].diameterMeters, run.velocity)
                  && r.run == None
                  && |r.bodies| == |bodies| - 1
                  && (forall j :: 0 <= j < run.slot ==> r.bodies[j] == bodies[j])
                  && (forall j :: run.slot <= j < |r.bodies| ==> r.bodies[j] == bodies[j + 1]))
            && (r.frame == Moved ==>
                  && r.run.Some?
                  && run.pathProgress <= r.run.value.pathProgress < 1.0
                  && r.run.value == run.(pathProgress := r.run.value.pathProgress)
                  && |r.bodies| == |bodies|
                  && (forall j :: 0 <= j < |bodies| && j != run.slot ==> r.bodies[j] == bodies[j])
                  && r.bodies[run.slot] == bodies[run.slot].(position := r.bodies[run.slot].position))
            && (r.frame.Impact? || r.frame == Moved)
  {
    ProgressNeverDecreases(f, run, bodies[run.slot].position, delta);
  }

  /** main.js's module-level simulation state. */
  class SimulationContext {
    const math: Functions
    var meteorites: seq<Body>
    var trajectoryLines: seq<TrajectoryLine>
    var animatingMeteor: Option<Run>
    var simulationTime: real
    var timeScale: real
    var isPaused: bool

    /** Every body is hyperbolic, and a run names an existing body and holds a full path. */
    ghost predicate Valid()
      reads this
    {
      && AllWellFormed(meteorites)
      && (animatingMeteor.Some? ==>
            animatingMeteor.value.slot < |meteorites| && |animatingMeteor.value.path| == ImpactPathSegments + 1)
    }

    /** The module's initial state: no bodies, no run, the clock at 0, normal speed, running. */
    constructor(math: Functions)
      ensures Valid()
      ensures this.math == math
      ensures meteorites == [] && trajectoryLines == [] && animatingMeteor == None
      ensures simulationTime == 0.0 && timeScale == 1.0 && !isPaused
    {
      this.math := math;
      meteorites := [];
      trajectoryLines := [];
      animatingMeteor := None;
      simulationTime := 0.0;
      timeScale := 1.0;
      isPaused := false;
    }

    /** createMeteoriteObjects: one body per object, appended in list order, each followed by
        its trajectory line when that has at least two points. */
    method CreateMeteoriteObjects(neoList: seq<NeoSummary>, draws: seq<Draws>)
      requires Valid()
      requires |draws| == |neoList| && forall k :: 0 <= k < |draws| ==> DrawsInRange(draws[k])
      modifies this
      ensures Valid()
      ensures meteorites == old(meteorites)
                            + seq(|neoList|, k requires 0 <= k < |neoList| => NewBody(math, neoList[k], draws[k]))
      ensures trajectoryLines == old(trajectoryLines) + LinesOf(math, meteorites[|old(meteorites)|..])
      ensures animatingMeteor == old(animatingMeteor) && simulationTime == old(simulationTime)
      ensures timeScale == old(timeScale) && isPaused == old(isPaused)
    {
      ghost var created := seq(|neoList|, k requires 0 <= k < |neoList| => NewBody(math, neoList[k], draws[k]));
      ghost var start := |meteorites|;
      for i := 0 to |neoList|
        invariant Valid()
        invariant meteorites == old(meteorites) + created[..i]
        invariant trajectoryLines == old(trajectoryLines) + LinesOf(math, meteorites[start..])
        invariant animatingMeteor == old(animatingMeteor) && simulationTime == old(simulationTime)
        invariant timeScale == old(timeScale) && isPaused == old(isPaused)
      {
        AddMeteorite(neoList[i], draws[i], start, old(trajectoryLines));
        PrefixExtend(created, i);
      }
      assert created[..|neoList|] == created;
    }

    /** createMeteoriteObjects' callback for one object: its body is pushed, then its
        trajectory line, so that the lines stay those of the bodies pushed since start. */
    method AddMeteorite(neo: NeoSummary, d: Draws, ghost start: nat, ghost earlierLines: seq<TrajectoryLine>)
      requires Valid() && DrawsInRange(d)
      requires start <= |meteorites| && trajectoryLines == earlierLines + LinesOf(math, meteorites[start..])
      modifies this
      ensures Valid()
      ensures meteorites == old(meteorites) + [NewBody(math, neo, d)]
      ensures trajectoryLines == earlierLines + LinesOf(math, meteorites[start..])
      ensures animatingMeteor == old(animatingMeteor) && simulationTime == old(simulationTime)
      ensures timeScale == old(timeScale) && isPaused == old(isPaused)
    {
      var mesh := NewBody(math, neo, d);
      PushMeteorite(mesh, start, earlierLines);
    }

    /** Pushing a hyperbolic body and then its trajectory line keeps the lines those of the
        bodies pushed since start. */
    method PushMeteorite(mesh: Body, ghost start: nat, ghost earlierLines: seq<TrajectoryLine>)
      requires Valid() && WellFormed(mesh)
      requires start <= |meteorites| && trajectoryLines == earlierLines + LinesOf(math, meteorites[start..])
      modifies this
      ensures Valid()
      ensures meteorites == old(meteorites) + [mesh]
      ensures trajectoryLines == earlierLines + LinesOf(math, meteorites[start..])
      ensures animatingMeteor == old(animatingMeteor) && simulationTime == old(simulationTime)
      ensures timeScale == old(timeScale) && isPaused == old(isPaused)
    {
      SuffixExtend(meteorites, mesh, start);
      AllWellFormedExtend(meteorites, mesh);
      LinesOfAppend(math, meteorites[start..], mesh);
      meteorites := meteorites + [mesh];
      AddTrajectoryLine(mesh);
    }

    /** createTrajectoryLine's effect on the state: the body's line, when it has one, is
        pushed. */
    method AddTrajectoryLine(mesh: Body)
      requires WellFormed(mesh)
      modifies this
      ensures trajectoryLines == old(trajectoryLines) + LineFor(math, mesh)
      ensures meteorites == old(meteorites) && animatingMeteor == old(animatingMeteor)
      ensures simulationTime == old(simulationTime) && timeScale == old(timeScale) && isPaused == old(isPaused)
    {
      var line := CreateTrajectoryLine(math, mesh);
      if line.Some? {
        trajectoryLines := trajectoryLines + [TrajectoryLine(mesh.id, line.value)];
      }
    }

    /** The time slider: the scale is the slider value in percent. */
    method SetTimeScale(sliderValue: real)
      modifies this
      ensures timeScale == sliderValue / 100.0
      ensures meteorites == old(meteorites) && trajectoryLines == old(trajectoryLines)
      ensures animatingMeteor == old(animatingMeteor) && simulationTime == old(simulationTime)
      ensures isPaused == old(isPaused)
    {
      timeScale := sliderValue / 100.0;
    }

    /** The pause button flips the pause flag. */
    method TogglePause()
      modifies this
      ensures isPaused == !old(isPaused)
      ensures meteorites == old(meteorites) && trajectoryLines == old(trajectoryLines)
      ensures animatingMeteor == old(animatingMeteor) && simulationTime == old(simulationTime)
      ensures timeScale == old(timeScale)
    {
      isPaused := !isPaused;
    }

    /** The reset button: the clock back to 0 and every body, the animating one included,
        back to its initial angle. */
    method Reset()
      requires Valid()
      modifies this
      ensures Valid()
      ensures simulationTime == 0.0
      ensures meteorites == ResetAll(math, old(meteorites))
      ensures trajectoryLines == old(trajectoryLines) && animatingMeteor == old(animatingMeteor)
      ensures timeScale == old(timeScale) && isPaused == old(isPaused)
    {
      simulationTime := 0.0;
      for i := 0 to |meteorites|
        invariant Valid()
        invariant |meteorites| == |old(meteorites)|
        invariant forall k :: 0 <= k < i ==> meteorites[k] == Rewind(math, old(meteorites)[k])
        invariant forall k :: i <= k < |meteorites| ==> meteorites[k] == old(meteorites)[k]
        invariant trajectoryLines == old(trajectoryLines) && animatingMeteor == old(animatingMeteor)
        invariant timeScale == old(timeScale) && isPaused == old(isPaused) && simulationTime == 0.0
      {
        var meteor := meteorites[i];
        meteor := meteor.(trueAnomaly := meteor.initialTrueAnomaly);
        meteor := Placed(math, meteor);
        meteorites := meteorites[i := meteor];
      }
    }

    /** updateMeteorMovement: when paused nothing changes; otherwise the clock advances by
        delta·timeScale and every body but the animating one takes one orbital tick. */
    method UpdateMeteorMovement(delta: real)
      requires Valid()
      modifies this
      ensures Valid()
      ensures old(isPaused) ==> simulationTime == old(simulationTime) && meteorites == old(meteorites)
      ensures !old(isPaused) ==> simulationTime == old(simulationTime) + delta * timeScale
      ensures !old(isPaused) ==> meteorites == Tick(math, old(meteorites), animatingMeteor, delta * timeScale)
      ensures trajectoryLines == old(trajectoryLines) && animatingMeteor == old(animatingMeteor)
      ensures timeScale == old(timeScale) && isPaused == old(isPaused)
    {
      if isPaused {
        return;
      }
      var adjustedDelta := delta * timeScale;
      simulationTime := simulationTime + adjustedDelta;
      ghost var ticked := Tick(math, meteorites, animatingMeteor, adjustedDelta);
      for i := 0 to |meteorites|
        invariant Valid()
        invariant |meteorites| == |ticked|
        invariant forall k :: 0 <= k < i ==> meteorites[k] == ticked[k]
        invariant forall k :: i <= k < |meteorites| ==> meteorites[k] == old(meteorites)[k]
        invariant trajectoryLines == old(trajectoryLines) && animatingMeteor == old(animatingMeteor)
        invariant timeScale == old(timeScale) && isPaused == old(isPaused)
        invariant simulationTime == old(simulationTime) + adjustedDelta
      {
        if IsAnimating(animatingMeteor, i) {
          continue;
        }
        var data := meteorites[i];
        ghost var before := data;
        var currentR := Length(math, data.position);
        var speedFactor := math.sqrt(data.periapsis / Max(currentR, 0.1));
        var increment := data.baseAngularSpeed * (1.0 + speedFactor) * adjustedDelta;
        assert increment == AngleIncrement(math, before, adjustedDelta);
        data := data.(trueAnomaly := data.trueAnomaly + increment);
        var maxAngle := MaxAngle(math, data.eccentricity);
        if data.trueAnomaly > maxAngle {
          data := data.(trueAnomaly := -maxAngle);
        }
        assert data == Turned(math, before, adjustedDelta);
        data := Placed(math, data);
        assert data == ticked[i];
        meteorites := meteorites[i := data];
      }
    }

    /** triggerImpact: an unknown id changes nothing; otherwise the body's trajectory line is
        dropped and a fresh run starts from the body's current position, replacing any run
        already in progress.  The body stays in the list. */
    method TriggerImpact(id: string, velocity: real)
      requires Valid()
      modifies this
      ensures Valid()
      ensures BodyIndex(old(meteorites), id).None? ==>
                trajectoryLines == old(trajectoryLines) && animatingMeteor == old(animatingMeteor)
      ensures BodyIndex(old(meteorites), id).Some? ==>
                var slot := BodyIndex(old(meteorites), id).value;
                && animatingMeteor.Some?
                && animatingMeteor.value.slot == slot
                && animatingMeteor.value.velocity == velocity
                && animatingMeteor.value.pathProgress == 0.0
                && animatingMeteor.value.baseSpeed == velocity * 0.002
                && |animatingMeteor.value.path| == ImpactPathSegments + 1
                && animatingMeteor.value.path[ImpactPathSegments] == Origin
                && (forall i :: 0 <= i < ImpactPathSegments ==>
                      animatingMeteor.value.path[i]
                      == ImpactPathPoint(math, old(meteorites)[slot].position, ImpactPathSegments, i))
                && trajectoryLines == match LineIndex(old(trajectoryLines), id)
                                      case None => old(trajectoryLines)
                                      case Some(k) => RemoveAt(old(trajectoryLines), k)
      ensures meteorites == old(meteorites) && simulationTime == old(simulationTime)
      ensures timeScale == old(timeScale) && isPaused == old(isPaused)
    {
      var found := BodyIndex(meteorites, id);
      if found.None? {
        return;
      }
      var slot := found.value;
      var oldTrajectory := LineIndex(trajectoryLines, id);
      if oldTrajectory.Some? {
        trajectoryLines := RemoveAt(trajectoryLines, oldTrajectory.value);
      }
      var currentPosition := meteorites[slot].position;
      var impactPath := GenerateCurvedImpactPath(math, currentPosition, ImpactPathSegments);
      animatingMeteor := Some(Run(slot, velocity, impactPath, 0.0, velocity * 0.002));
    }

    /** updateImpactAnimation: advance the run, move its body along the path, and on arrival
        request the impact report, remove exactly that body and end the run. */
    method UpdateImpactAnimation(delta: real) returns (frame: Frame)
      requires Valid()
      modifies this
      ensures Valid()
      ensures old(animatingMeteor).None? ==> frame == NoRun && meteorites == old(meteorites) && animatingMeteor == None
      ensures old(animatingMeteor).Some? ==>
                FrameResult(frame, meteorites, animatingMeteor)
                == AnimateFrame(math, old(meteorites), old(animatingMeteor).value, delta)
      ensures trajectoryLines == old(trajectoryLines) && simulationTime == old(simulationTime)
      ensures timeScale == old(timeScale) && isPaused == old(isPaused)
    {
      if animatingMeteor.None? {
        return NoRun;
      }
      var run := animatingMeteor.value;
      var path := run.path;
      var currentPos := meteorites[run.slot].position;
      var speedMultiplier := SpeedMultiplier(math, currentPos);
      ghost var expected := AnimateFrame(math, meteorites, run, delta);
      var pathProgress := run.pathProgress + run.baseSpeed * speedMultiplier * delta;
      assert pathProgress == Progressed(math, run, currentPos, delta);
      run := run.(pathProgress := pathProgress);
      animatingMeteor := Some(run);

      var onPath := PositionOnPath(path, run.pathProgress);
      if onPath.None? {
        assert expected == FrameResult(Threw, meteorites, animatingMeteor);
        return Threw;
      }
      var newPos := onPath.value;
      var body := meteorites[run.slot];
      ghost var before := meteorites;
      MovingOrRemovingKeepsWellFormed(before, run.slot, newPos);
      meteorites := meteorites[run.slot := body.(position := newPos)];

      if Length(math, newPos) < EarthVisualRadius(math) || run.pathProgress >= 1.0 {
        frame := Impact(body.diameterMeters, run.velocity);
        RemoveAtAfterUpdate(before, run.slot, body.(position := newPos));
        meteorites := RemoveAt(meteorites, run.slot);
        animatingMeteor := None;
      } else {
        frame := Moved;
      }
      assert FrameResult(frame, meteorites, animatingMeteor) == expected;
    }
  }
}
