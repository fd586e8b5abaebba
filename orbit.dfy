/** The geometry of frontend/js/main.js: the bodies' orbital records, positions on the
    stylised hyperbola (getHyperbolicPosition), the sampled trajectory curve
    (createTrajectoryLine) and the curved descent path (generateCurvedImpactPath). */
module Orbit {
  import opened Common
  import opened Elementary
  import opened Vectors
  import Physics

  /** EARTH_VISUAL_RADIUS: the scaled Earth radius shrunk to 40%. */
  function EarthVisualRadius(f: Functions): real {
    Physics.ScaledEarthRadius(f) * 0.4
  }

  /** With log10(10^4) = 4 the visual radius is 1.6 scene units. */
  lemma EarthVisualRadiusValue(f: Functions)
    requires LogLaws(f)
    ensures EarthVisualRadius(f) == 1.6
  {
    Physics.ScaledEarthRadiusIsFour(f);
  }

  /** TRAJECTORY_POINTS: the trajectory curve has this many segments. */
  const TrajectoryPoints: nat := 120

  /** Points on the visible trajectory are closer to the origin than this. */
  const VisibilityBound: real := 100.0

  /** A meteor's userData as far as the engine uses it: its identity and size, its orbital
      parameters, its phase angle ("true anomaly") now and at creation, its base angular
      speed, and the position of its mesh in the scene. */
  datatype Body = Body(
    id: string,
    diameterMeters: real,
    periapsis: real,
    eccentricity: real,
    orbitRotation: real,
    inclination: real,
    trueAnomaly: real,
    initialTrueAnomaly: real,
    baseAngularSpeed: real,
    position: Vec3)

  /** The eccentricity is drawn as 1.5 + random, so every body's orbit is a hyperbola. */
  predicate WellFormed(b: Body) {
    b.eccentricity >= 1.5
  }

  /** The largest phase angle shown: 85% of the asymptote's angle acos(-1/e). */
  function MaxAngle(f: Functions, eccentricity: real): real
    requires eccentricity != 0.0
  {
    f.acos(-1.0 / eccentricity) * 0.85
  }

  /** For a hyperbola the visible arc [-MaxAngle, MaxAngle] is not empty. */
  lemma MaxAnglePositive(f: Functions, eccentricity: real)
    requires AcosLaws(f)
    requires eccentricity >= 1.5
    ensures MaxAngle(f, eccentricity) > 0.0
  {
    assert -1.0 <= -1.0 / eccentricity < 1.0;
  }

  /** The denominator 1 + e·cos ν of the orbit equation. */
  function OrbitDenominator(f: Functions, trueAnomaly: real, eccentricity: real): real {
    1.0 + eccentricity * f.cos(trueAnomaly)
  }

  /** The orbit equation r = p(1+e) / (1 + e·cos ν). */
  function OrbitRadius(f: Functions, trueAnomaly: real, periapsis: real, eccentricity: real): real
    requires OrbitDenominator(f, trueAnomaly, eccentricity) != 0.0
  {
    periapsis * (1.0 + eccentricity) / OrbitDenominator(f, trueAnomaly, eccentricity)
  }

  /** getHyperbolicPosition: no position (null) when r is not finite (the denominator is 0)
      or negative; otherwise the point at distance r in the orbital plane, turned by the
      inclination about the x axis and then by the orbit rotation about the y axis. */
  function HyperbolicPosition(f: Functions, trueAnomaly: real, periapsis: real, eccentricity: real,
                              orbitRotation: real, inclination: real): Option<Vec3>
  {
    if OrbitDenominator(f, trueAnomaly, eccentricity) == 0.0 then None
    else
      var r := OrbitRadius(f, trueAnomaly, periapsis, eccentricity);
      if r < 0.0 then None
      else
        Some(OrbitPoint(f, r, trueAnomaly, orbitRotation, inclination))
  }

  /** The point at distance r and phase angle ν in the orbital plane, turned into space. */
  function OrbitPoint(f: Functions, r: real, trueAnomaly: real, orbitRotation: real, inclination: real): Vec3 {
    var x := r * f.cos(trueAnomaly);
    var z := r * f.sin(trueAnomaly);
    Rotated(x, z, f.cos(inclination), f.sin(inclination), f.cos(orbitRotation), f.sin(orbitRotation))
  }

  /** The point (x, 0, z) of the orbital plane turned about the x axis by the inclination and
      then about the y axis by the orbit rotation, given their cosines and sines. */
  function Rotated(x: real, z: real, cosInc: real, sinInc: real, cosRot: real, sinRot: real): Vec3 {
    var y := 0.0;
    var tempY := y * cosInc - z * sinInc;
    var tempZ := y * sinInc + z * cosInc;
    Vec3(x * cosRot - tempZ * sinRot, tempY, x * sinRot + tempZ * cosRot)
  }

  /** Both turns preserve length: the turned point is as far from the origin as (x, 0, z). */
  lemma RotatedLength(x: real, z: real, cosInc: real, sinInc: real, cosRot: real, sinRot: real)
    requires cosInc * cosInc + sinInc * sinInc == 1.0 && cosRot * cosRot + sinRot * sinRot == 1.0
    ensures LengthSq(Rotated(x, z, cosInc, sinInc, cosRot, sinRot)) == x * x + z * z
  {
    var tempY, tempZ := -(z * sinInc), z * cosInc;
    assert Rotated(x, z, cosInc, sinInc, cosRot, sinRot)
           == Vec3(x * cosRot - tempZ * sinRot, tempY, x * sinRot + tempZ * cosRot);
    assert (x * cosRot - tempZ * sinRot) * (x * cosRot - tempZ * sinRot) + (x * sinRot + tempZ * cosRot) * (x * sinRot + tempZ * cosRot)
           == (x * x + tempZ * tempZ) * (cosRot * cosRot + sinRot * sinRot);
    assert tempY * tempY + tempZ * tempZ == (z * z) * (sinInc * sinInc + cosInc * cosInc);
  }

  /** With the three angles' cosines and sines on the unit circle, the point lies at squared
      distance r² from the origin. */
  lemma OrbitPointSquared(f: Functions, r: real, trueAnomaly: real, orbitRotation: real, inclination: real)
    requires f.cos(trueAnomaly) * f.cos(trueAnomaly) + f.sin(trueAnomaly) * f.sin(trueAnomaly) == 1.0
    requires f.cos(inclination) * f.cos(inclination) + f.sin(inclination) * f.sin(inclination) == 1.0
    requires f.cos(orbitRotation) * f.cos(orbitRotation) + f.sin(orbitRotation) * f.sin(orbitRotation) == 1.0
    ensures LengthSq(OrbitPoint(f, r, trueAnomaly, orbitRotation, inclination)) == r * r
  {
    var c, s := f.cos(trueAnomaly), f.sin(trueAnomaly);
    var x, z := r * c, r * s;
    RotatedLength(x, z, f.cos(inclination), f.sin(inclination), f.cos(orbitRotation), f.sin(orbitRotation));
    assert x * x + z * z == (r * r) * (c * c + s * s);
  }

  /** There is no position exactly when r is infinite or negative; otherwise the position is
      at distance r from the origin, because both rotations preserve length. */
  lemma HyperbolicPositionAtRadius(f: Functions, trueAnomaly: real, periapsis: real, eccentricity: real,
                                   orbitRotation: real, inclination: real)
    requires TrigLaws(f) && SqrtLaws(f)
    ensures var pos := HyperbolicPosition(f, trueAnomaly, periapsis, eccentricity, orbitRotation, inclination);
            && (pos.None? <==> (OrbitDenominator(f, trueAnomaly, eccentricity) == 0.0
                                || OrbitRadius(f, trueAnomaly, periapsis, eccentricity) < 0.0))
            && (pos.Some? ==> Length(f, pos.value) == OrbitRadius(f, trueAnomaly, periapsis, eccentricity))
  {
    var pos := HyperbolicPosition(f, trueAnomaly, periapsis, eccentricity, orbitRotation, inclination);
    if pos.Some? {
      var r := OrbitRadius(f, trueAnomaly, periapsis, eccentricity);
      assert pos.value == OrbitPoint(f, r, trueAnomaly, orbitRotation, inclination);
      OrbitPointSquared(f, r, trueAnomaly, orbitRotation, inclination);
      LengthFromSquare(f, pos.value, r);
    }
  }

  /** The position of a body on its orbit at its current phase angle. */
  function BodyPosition(f: Functions, b: Body): Option<Vec3> {
    HyperbolicPosition(f, b.trueAnomaly, b.periapsis, b.eccentricity, b.orbitRotation, b.inclination)
  }

  /** updateMeteorPosition: move the mesh to the orbital position, or leave it where it is
      when there is none. */
  function Placed(f: Functions, b: Body): (r: Body)
    ensures r.(position := b.position) == b
  {
    match BodyPosition(f, b)
    case Some(pos) => b.(position := pos)
    case None => b
  }

  /** The phase angle of sample i of createTrajectoryLine's sweep over [-maxAngle, maxAngle]. */
  function SampleAngle(maxAngle: real, i: int): real {
    var t := i as real / TrajectoryPoints as real;
    -maxAngle + t * 2.0 * maxAngle
  }

  /** Sample angles increase with the index and stay within [-maxAngle, maxAngle]. */
  lemma SampleAnglesIncrease(maxAngle: real, i: int, j: int)
    requires maxAngle > 0.0
    requires 0 <= i < j <= TrajectoryPoints
    ensures -maxAngle <= SampleAngle(maxAngle, i) < SampleAngle(maxAngle, j) <= maxAngle
  {
    var ti, tj := i as real / 120.0, j as real / 120.0;
    var span := 2.0 * maxAngle;
    assert SampleAngle(maxAngle, i) + maxAngle == ti * span;
    assert SampleAngle(maxAngle, j) - SampleAngle(maxAngle, i) == (tj - ti) * span;
    assert maxAngle - SampleAngle(maxAngle, j) == (1.0 - tj) * span;
    assert 0.0 <= ti && 0.0 < tj - ti && 0.0 <= 1.0 - tj;
  }

  /** The position of sample i, if any. */
  function SamplePosition(f: Functions, b: Body, i: int): Option<Vec3>
    requires WellFormed(b)
  {
    HyperbolicPosition(f, SampleAngle(MaxAngle(f, b.eccentricity), i), b.periapsis, b.eccentricity,
                       b.orbitRotation, b.inclination)
  }

  /** Sample i is drawn: it has a position, and that position is within the visibility bound. */
  predicate Visible(f: Functions, b: Body, i: int)
    requires WellFormed(b)
  {
    var pos := SamplePosition(f, b, i);
    pos.Some? && Length(f, pos.value) < VisibilityBound
  }

  /** The indices, among the first n samples, of those that are drawn, in sweep order. */
  function VisibleIndices(f: Functions, b: Body, n: nat): seq<nat>
    requires WellFormed(b)
  {
    if n == 0 then []
    else VisibleIndices(f, b, n - 1) + (if Visible(f, b, n - 1) then [n - 1] else [])
  }

  /** The drawn points among the first n samples, in sweep order. */
  function VisibleSamples(f: Functions, b: Body, n: nat): seq<Vec3>
    requires WellFormed(b)
  {
    if n == 0 then []
    else VisibleSamples(f, b, n - 1) + (if Visible(f, b, n - 1) then [SamplePosition(f, b, n - 1).value] else [])
  }

  /** The drawn points are exactly the visible samples, taken in increasing index order:
      point k is the position of sample idx[k], that sample is visible, the indices
      strictly increase, and every visible sample below n is among them. */
  lemma {:induction false} VisibleSamplesAreFilteredSweep(f: Functions, b: Body, n: nat)
    requires WellFormed(b)
    ensures var idx := VisibleIndices(f, b, n);
            var pts := VisibleSamples(f, b, n);
            && |pts| == |idx|
            && (forall k :: 0 <= k < |idx| ==> idx[k] < n && Visible(f, b, idx[k])
                                               && pts[k] == SamplePosition(f, b, idx[k]).value)
            && (forall k, l :: 0 <= k < l < |idx| ==> idx[k] < idx[l])
            && (forall i :: 0 <= i < n && Visible(f, b, i) ==> i in idx)
  {
    if n > 0 {
      VisibleSamplesAreFilteredSweep(f, b, n - 1);
    }
  }

  /** createTrajectoryLine's sampling: sweep TRAJECTORY_POINTS + 1 angles, keep the drawn
      positions in order, and produce no line when fewer than two remain. */
  method CreateTrajectoryLine(f: Functions, b: Body) returns (line: Option<seq<Vec3>>)
    requires WellFormed(b)
    ensures var kept := VisibleSamples(f, b, TrajectoryPoints + 1);
            line == if |kept| < 2 then None else Some(kept)
  {
    var points: seq<Vec3> := [];
    var maxAngle := MaxAngle(f, b.eccentricity);
    for i := 0 to TrajectoryPoints + 1
      invariant points == VisibleSamples(f, b, i)
    {
      var t := i as real / TrajectoryPoints as real;
      var angle := -maxAngle + t * 2.0 * maxAngle;
      assert angle == SampleAngle(maxAngle, i);
      var pos := HyperbolicPosition(f, angle, b.periapsis, b.eccentricity, b.orbitRotation, b.inclination);
      assert pos == SamplePosition(f, b, i);
      if pos.Some? && Length(f, pos.value) < VisibilityBound {
        points := points + [pos.value];
      }
      assert points == VisibleSamples(f, b, i + 1);
    }
    if |points| < 2 {
      return None;
    }
    return Some(points);
  }

  /** The surface the descent path may not dip under before its last point: 95% of the
      Earth's visual radius. */
  function MinSurfaceDistance(f: Functions): real {
    EarthVisualRadius(f) * 0.95
  }

  /** Point i of generateCurvedImpactPath before the surface projection: the start eased
      towards the origin by the smoothstep t²(3 − 2t), pushed sideways, along the start
      turned 90° in the horizontal plane, by sin(tπ)·0.3·|start|·(1 − t). */
  function CurvedPoint(f: Functions, start: Vec3, numPoints: nat, i: nat): Vec3
    requires 0 < numPoints
  {
    var startDistance := Length(f, start);
    var perpendicular := Normalize(f, Vec3(-start.z, 0.0, start.x));
    var curveStrength := startDistance * 0.3;
    CurvedPointAt(f, start, perpendicular, curveStrength, i as real / numPoints as real)
  }

  /** The curved point at parameter t, given the sideways direction and the curve strength. */
  function CurvedPointAt(f: Functions, start: Vec3, perpendicular: Vec3, curveStrength: real, t: real): Vec3 {
    var easeT := t * t * (3.0 - 2.0 * t);
    var straightPoint := Lerp(start, Origin, easeT);
    var curveFactor := f.sin(t * PI) * curveStrength * (1.0 - t);
    Add(straightPoint, Scale(perpendicular, curveFactor))
  }

  /** Point i of the path: a point before the last that came out closer than the minimum
      surface distance is pushed radially out onto that distance. */
  function ImpactPathPoint(f: Functions, start: Vec3, numPoints: nat, i: nat): Vec3
    requires 0 < numPoints
  {
    var curvedPoint := CurvedPoint(f, start, numPoints, i);
    var minDist := MinSurfaceDistance(f);
    if Length(f, curvedPoint) < minDist && i < numPoints
    then Scale(Normalize(f, curvedPoint), minDist)
    else curvedPoint
  }

  /** generateCurvedImpactPath: numPoints + 1 points, the last forced to the origin. */
  method GenerateCurvedImpactPath(f: Functions, startPosition: Vec3, numPoints: nat) returns (points: seq<Vec3>)
    requires 0 < numPoints
    ensures |points| == numPoints + 1
    ensures points[numPoints] == Origin
    ensures forall i :: 0 <= i < numPoints ==> points[i] == ImpactPathPoint(f, startPosition, numPoints, i)
  {
    points := [];
    var startPos := startPosition;
    var startDistance := Length(f, startPos);
    var perpendicular := Normalize(f, Vec3(-startPos.z, 0.0, startPos.x));
    var curveStrength := startDistance * 0.3;
    for i := 0 to numPoints + 1
      invariant |points| == i
      invariant forall k :: 0 <= k < i ==> points[k] == ImpactPathPoint(f, startPosition, numPoints, k)
    {
      var t := i as real / numPoints as real;
      var easeT := t * t * (3.0 - 2.0 * t);
      var straightPoint := Lerp(startPos, Origin, easeT);
      var curveFactor := f.sin(t * PI) * curveStrength * (1.0 - t);
      var curvedPoint := Add(straightPoint, Scale(perpendicular, curveFactor));
      var minDist := EarthVisualRadius(f) * 0.95;
      assert curvedPoint == CurvedPointAt(f, startPos, perpendicular, curveStrength, t);
      assert curvedPoint == CurvedPoint(f, startPosition, numPoints, i);
      if Length(f, curvedPoint) < minDist && i < numPoints {
        curvedPoint := Scale(Normalize(f, curvedPoint), minDist);
      }
      assert curvedPoint == ImpactPathPoint(f, startPosition, numPoints, i);
      points := points + [curvedPoint];
    }
    points := points[numPoints := Origin];
  }

  /** The path starts at the body itself when the body is outside the minimum surface distance. */
  lemma ImpactPathStartsAtBody(f: Functions, start: Vec3, numPoints: nat)
    requires TrigLaws(f)
    requires 0 < numPoints
    requires Length(f, start) >= MinSurfaceDistance(f)
    ensures ImpactPathPoint(f, start, numPoints, 0) == start
  {
    assert 0.0 * PI == 0.0;
    assert CurvedPoint(f, start, numPoints, 0) == start;
  }

  /** Before the last point the path never dips under the minimum surface distance, unless
      the unprojected point is the origin itself; a point that had to be pushed out lies
      exactly on that distance. */
  lemma ImpactPathStaysAboveSurface(f: Functions, start: Vec3, numPoints: nat, i: nat)
    requires SqrtLaws(f) && LogLaws(f)
    requires 0 < numPoints && i < numPoints
    requires CurvedPoint(f, start, numPoints, i) != Origin
    ensures Length(f, ImpactPathPoint(f, start, numPoints, i)) >= MinSurfaceDistance(f)
    ensures Length(f, CurvedPoint(f, start, numPoints, i)) < MinSurfaceDistance(f)
            ==> Length(f, ImpactPathPoint(f, start, numPoints, i)) == MinSurfaceDistance(f)
  {
    var curvedPoint := CurvedPoint(f, start, numPoints, i);
    var minDist := MinSurfaceDistance(f);
    EarthVisualRadiusValue(f);
    assert minDist > 0.0;
    if Length(f, curvedPoint) < minDist {
      var unit := Normalize(f, curvedPoint);
      NormalizeIsUnit(f, curvedPoint);
      LengthOfScale(f, unit, minDist);
    }
  }
}
