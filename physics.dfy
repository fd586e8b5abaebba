/** frontend/js/physics.js: distance scaling for the 3D scene, the impactor's mass and
    kinetic energy, the consequence estimates (crater, earthquake, destruction radius),
    the nearest historical benchmark, and number formatting. */
module Physics {
  import opened Common
  import opened Elementary
  import opened Vectors

  const AsteroidDensityKgM3: real := 3000.0
  const HiroshimaJoules: real := 6.3e13
  const EarthRadiusKm: real := 6371.0
  /** scaleDistance's MIN_DISTANCE. */
  const MinDistanceKm: real := 10000.0
  /** Joules in one megaton of TNT. */
  const JoulesPerMegaton: real := 4.184e15

  /** scaleDistance: log10 of the distance, clamped below at MIN_DISTANCE. */
  function ScaleDistance(f: Functions, realDistanceKm: real): real {
    f.log10(Max(realDistanceKm, MinDistanceKm))
  }

  /** getScaledEarthRadius. */
  function ScaledEarthRadius(f: Functions): real {
    ScaleDistance(f, EarthRadiusKm)
  }

  /** Every distance up to MIN_DISTANCE scales to 4; beyond it the scale never decreases. */
  lemma ScaleDistanceClampsThenGrows(f: Functions, d1: real, d2: real)
    requires LogLaws(f)
    ensures d1 <= MinDistanceKm ==> ScaleDistance(f, d1) == 4.0
    ensures d1 <= d2 ==> ScaleDistance(f, d1) <= ScaleDistance(f, d2)
    ensures ScaleDistance(f, d1) >= 4.0
  {
    assert Pow10(4) == MinDistanceKm;
    assert f.log10(Pow10(4)) == 4.0;
    LogMonotone(f, MinDistanceKm, Max(d1, MinDistanceKm));
    if d1 <= d2 {
      LogMonotone(f, Max(d1, MinDistanceKm), Max(d2, MinDistanceKm));
    }
  }

  /** The Earth's radius, 6371 km, is below MIN_DISTANCE, so it scales to 4. */
  lemma ScaledEarthRadiusIsFour(f: Functions)
    requires LogLaws(f)
    ensures ScaledEarthRadius(f) == 4.0
  {
    ScaleDistanceClampsThenGrows(f, EarthRadiusKm, EarthRadiusKm);
  }

  /** estimateMass: density times the volume of a sphere of the given diameter. */
  function EstimateMass(f: Functions, diameterMeters: real): real {
    var radius := diameterMeters / 2.0;
    var volume := (4.0 / 3.0) * PI * f.pow(radius, 3.0);
    AsteroidDensityKgM3 * volume
  }

  /** calculateKineticEnergy: ½ m v², with the speed converted from km/s to m/s. */
  function KineticEnergy(f: Functions, diameterMeters: real, velocityKmPerSec: real): real {
    var mass := EstimateMass(f, diameterMeters);
    var velocityMps := velocityKmPerSec * 1000.0;
    0.5 * mass * f.pow(velocityMps, 2.0)
  }

  /** The energy is the polynomial ½·3000·(4/3)·π·(d/2)³·(1000·v)² = 2.5e8·π·d³·v². */
  lemma KineticEnergyPolynomial(f: Functions, d: real, v: real)
    requires PowLaws(f)
    ensures KineticEnergy(f, d, v) == 250000000.0 * PI * (d * d * d) * (v * v)
  {
    assert f.pow(d / 2.0, 3.0) == (d / 2.0) * (d / 2.0) * (d / 2.0);
    assert f.pow(v * 1000.0, 2.0) == (v * 1000.0) * (v * 1000.0);
  }

  /** A body of positive size moving at a non-zero speed carries positive energy. */
  lemma KineticEnergyPositive(f: Functions, d: real, v: real)
    requires PowLaws(f)
    requires d > 0.0 && v != 0.0
    ensures KineticEnergy(f, d, v) > 0.0
  {
    KineticEnergyPolynomial(f, d, v);
    PolynomialPositive(d, v, KineticEnergy(f, d, v));
  }

  /** 2.5e8·π·d³·v² is positive for a positive diameter and a non-zero speed. */
  lemma PolynomialPositive(d: real, v: real, e: real)
    requires d > 0.0 && v != 0.0
    requires e == 250000000.0 * PI * (d * d * d) * (v * v)
    ensures e > 0.0
  {
    assert d * d > 0.0;
    assert d * d * d > 0.0;
    SquareStrictlyIncreasing(0.0, Abs(v));
    assert v * v == Abs(v) * Abs(v);
    var k := 250000000.0 * PI;
    assert k > 0.0;
    assert k * (d * d * d) > 0.0;
  }

  /** Doubling the speed quadruples the energy; doubling the diameter multiplies it by eight. */
  lemma KineticEnergyScaling(f: Functions, d: real, v: real)
    requires PowLaws(f)
    ensures KineticEnergy(f, d, 2.0 * v) == 4.0 * KineticEnergy(f, d, v)
    ensures KineticEnergy(f, 2.0 * d, v) == 8.0 * KineticEnergy(f, d, v)
  {
    KineticEnergyPolynomial(f, d, v);
    KineticEnergyPolynomial(f, d, 2.0 * v);
    KineticEnergyPolynomial(f, 2.0 * d, v);
    var k := 250000000.0 * PI;
    assert (2.0 * v) * (2.0 * v) == 4.0 * (v * v);
    assert (2.0 * d) * (2.0 * d) * (2.0 * d) == 8.0 * (d * d * d);
    assert k * (d * d * d) * (4.0 * (v * v)) == 4.0 * (k * (d * d * d) * (v * v));
    assert k * (8.0 * (d * d * d)) * (v * v) == 8.0 * (k * (d * d * d) * (v * v));
  }

  /** A 1 km body at 20 km/s carries 10²⁰·π J, about 3.14e20 J. */
  lemma KilometreBodyAtTwentyKmPerSecond(f: Functions)
    requires PowLaws(f)
    ensures KineticEnergy(f, 1000.0, 20.0) == 1.0e20 * PI
  {
    KineticEnergyPolynomial(f, 1000.0, 20.0);
  }

  /** jouleToHiroshimas: the energy in units of the Hiroshima yield. */
  function JoulesToHiroshimas(joules: real): (r: real)
    ensures r * HiroshimaJoules == joules
  {
    joules / HiroshimaJoules
  }

  /** A number written as mantissa × 10^exponent. */
  datatype Scientific = Scientific(mantissa: real, exponent: int)

  /** r writes x in normalised scientific notation: a mantissa in [1, 10) times a power of ten. */
  predicate Normalised(r: Scientific, x: real) {
    1.0 <= r.mantissa < 10.0 && r.mantissa * Pow10(r.exponent) == x
  }

  /** formatEnergy, without the rendering: the exponent is floor(log10 E) and the mantissa
      E / Math.pow(10, exponent), which is never a division by 0 as pow(10, n) is 10^n. */
  function FormatEnergy(f: Functions, joules: real): Scientific
    requires PowTenLaws(f)
  {
    var exponent := f.log10(joules).Floor;
    var power := f.pow(10.0, exponent as real);
    assert power == Pow10(exponent);
    Scientific(joules / power, exponent)
  }

  /** For a positive energy the mantissa lies in [1, 10) and mantissa × 10^exponent = E. */
  lemma FormatEnergyMantissaInRange(f: Functions, joules: real)
    requires PowTenLaws(f) && LogLaws(f)
    requires joules > 0.0
    ensures Normalised(FormatEnergy(f, joules), joules)
  {
    FormatEnergyIsQuotient(f, joules);
    ScientificFromBrackets(f, joules, FormatEnergy(f, joules));
  }

  /** formatEnergy divides by the exact power of ten. */
  lemma FormatEnergyIsQuotient(f: Functions, joules: real)
    requires PowTenLaws(f)
    ensures var k := f.log10(joules).Floor; FormatEnergy(f, joules) == Scientific(joules / Pow10(k), k)
  {
    var k := f.log10(joules).Floor;
    assert f.pow(10.0, k as real) == Pow10(k);
  }

  /** E divided by the power of ten its floored logarithm names is a mantissa in [1, 10). */
  lemma ScientificFromBrackets(f: Functions, joules: real, r: Scientific)
    requires LogLaws(f)
    requires joules > 0.0
    requires var k := f.log10(joules).Floor; r == Scientific(joules / Pow10(k), k)
    ensures Normalised(r, joules)
  {
    var k := f.log10(joules).Floor;
    var p := Pow10(k);
    LogFloorBrackets(f, joules);
    Pow10Succ(k);
    assert p <= joules < 10.0 * p;
    MantissaBounds(joules, p, r);
  }

  /** Dividing E by a power p with p <= E < 10p gives a mantissa in [1, 10) that multiplies
      back to E. */
  lemma MantissaBounds(joules: real, p: real, r: Scientific)
    requires 0.0 < p <= joules < 10.0 * p
    requires r.mantissa == joules / p && Pow10(r.exponent) == p
    ensures 1.0 <= r.mantissa < 10.0
    ensures r.mantissa * Pow10(r.exponent) == joules
  {
    QuotientBounds(joules, p, 1.0, 10.0);
  }

  /** calculateCraterDiameter, in km. */
  function CraterDiameterKm(f: Functions, kineticEnergyJoules: real): real {
    var energyMegatons := kineticEnergyJoules / JoulesPerMegaton;
    0.074 * f.pow(energyMegatons, 0.29)
  }

  /** calculateEarthquakeMagnitude: a Richter-like transform of 1% of the energy. */
  function EarthquakeMagnitude(f: Functions, kineticEnergyJoules: real): real {
    var seismicEnergy := kineticEnergyJoules * 0.01;
    (f.log10(seismicEnergy) - 4.8) / 1.5
  }

  /** calculateDestructionRadius, in km. */
  function DestructionRadiusKm(f: Functions, kineticEnergyJoules: real): real {
    var energyMegatons := kineticEnergyJoules / JoulesPerMegaton;
    1.4 * f.pow(energyMegatons, 1.0 / 3.0)
  }

  /** More energy never gives a smaller crater, earthquake or destruction radius. */
  lemma ConsequencesGrowWithEnergy(f: Functions, e1: real, e2: real)
    requires PowLaws(f) && LogLaws(f)
    requires 0.0 < e1 <= e2
    ensures CraterDiameterKm(f, e1) <= CraterDiameterKm(f, e2)
    ensures EarthquakeMagnitude(f, e1) <= EarthquakeMagnitude(f, e2)
    ensures DestructionRadiusKm(f, e1) <= DestructionRadiusKm(f, e2)
  {
    PowMonotone(f, e1 / JoulesPerMegaton, e2 / JoulesPerMegaton, 0.29);
    PowMonotone(f, e1 / JoulesPerMegaton, e2 / JoulesPerMegaton, 1.0 / 3.0);
    LogMonotone(f, e1 * 0.01, e2 * 0.01);
  }

  datatype Benchmark = Benchmark(name: string, energy: real, description: string)

  /** BENCHMARKS, in the source's order. */
  const Benchmarks: seq<Benchmark> := [
    Benchmark("Chelyabinsk (2013)", 500e3 * 4.184e9, "Shattered windows, 1,500 injured"),
    Benchmark("Tunguska (1908)", 15e6 * 4.184e9, "Flattened 2,000 km2 of forest"),
    Benchmark("Meteor Crater (50,000 ya)", 10e6 * 4.184e9, "1.2 km crater in Arizona"),
    Benchmark("Chicxulub (66 Ma)", 1e8 * 4.184e15, "Mass extinction event")
  ]

  /** How far a benchmark lies from the energy, in decades. */
  function LogGap(f: Functions, logEnergy: real, b: Benchmark): real {
    Abs(logEnergy - f.log10(b.energy))
  }

  /** One step of the reduce: the new entry replaces the current one only when strictly closer. */
  function Closer(f: Functions, logEnergy: real, closest: Benchmark, b: Benchmark): Benchmark {
    if LogGap(f, logEnergy, b) < LogGap(f, logEnergy, closest) then b else closest
  }

  /** Array.prototype.reduce over the remaining entries. */
  function Reduce(f: Functions, logEnergy: real, closest: Benchmark, rest: seq<Benchmark>): Benchmark
    decreases |rest|
  {
    if rest == [] then closest
    else Reduce(f, logEnergy, Closer(f, logEnergy, closest, rest[0]), rest[1..])
  }

  /** findNearestBenchmark: reduce without an initial value starts from the first entry. */
  function NearestBenchmark(f: Functions, kineticEnergy: real): Benchmark {
    Reduce(f, f.log10(kineticEnergy), Benchmarks[0], Benchmarks[1..])
  }

  /** Among the first n entries of the table, entry k is at minimal log distance, and every
      earlier entry is strictly farther. */
  ghost predicate FirstNearestAmong(f: Functions, logEnergy: real, table: seq<Benchmark>, n: int, k: int) {
    && 0 <= k < n <= |table|
    && (forall j :: 0 <= j < n ==> LogGap(f, logEnergy, table[k]) <= LogGap(f, logEnergy, table[j]))
    && (forall j :: 0 <= j < k ==> LogGap(f, logEnergy, table[k]) < LogGap(f, logEnergy, table[j]))
  }

  /** Entry k is the first entry of the whole table at minimal log distance. */
  ghost predicate FirstNearest(f: Functions, logEnergy: real, table: seq<Benchmark>, k: int) {
    FirstNearestAmong(f, logEnergy, table, |table|, k)
  }

  /** Reducing the entries from i on, starting from the first nearest entry among the first i,
      yields the first nearest entry k of the whole table. */
  lemma {:induction false} ReduceFindsFirstNearest(f: Functions, logEnergy: real, table: seq<Benchmark>, c: int, i: int)
    returns (k: int)
    requires FirstNearestAmong(f, logEnergy, table, i, c)
    ensures FirstNearest(f, logEnergy, table, k)
    ensures table[k] == Reduce(f, logEnergy, table[c], table[i..])
    decreases |table| - i
  {
    if i == |table| {
      assert table[i..] == [];
      k := c;
    } else {
      var c' := if LogGap(f, logEnergy, table[i]) < LogGap(f, logEnergy, table[c]) then i else c;
      assert Closer(f, logEnergy, table[c], table[i]) == table[c'];
      assert table[i..][0] == table[i] && table[i..][1..] == table[i + 1..];
      assert FirstNearestAmong(f, logEnergy, table, i + 1, c');
      k := ReduceFindsFirstNearest(f, logEnergy, table, c', i + 1);
    }
  }

  /** findNearestBenchmark returns the table entry k that is at minimal log distance from
      the energy, and the earliest such entry when several tie. */
  lemma NearestBenchmarkIsFirstNearest(f: Functions, kineticEnergy: real) returns (k: int)
    ensures FirstNearest(f, f.log10(kineticEnergy), Benchmarks, k)
    ensures Benchmarks[k] == NearestBenchmark(f, kineticEnergy)
  {
    var logEnergy := f.log10(kineticEnergy);
    assert FirstNearestAmong(f, logEnergy, Benchmarks, 1, 0);
    k := ReduceFindsFirstNearest(f, logEnergy, Benchmarks, 0, 1);
  }

  /** Every positive energy up to Chelyabinsk's (5e13 J, for one) is matched to Chelyabinsk. */
  lemma SmallImpactsMatchChelyabinsk(f: Functions, kineticEnergy: real)
    requires LogLaws(f)
    requires 0.0 < kineticEnergy <= Benchmarks[0].energy
    ensures NearestBenchmark(f, kineticEnergy).name == "Chelyabinsk (2013)"
  {
    var logEnergy := f.log10(kineticEnergy);
    LogMonotone(f, kineticEnergy, Benchmarks[0].energy);
    forall j | 1 <= j < |Benchmarks|
      ensures LogGap(f, logEnergy, Benchmarks[0]) < LogGap(f, logEnergy, Benchmarks[j])
    {
      assert f.log10(Benchmarks[0].energy) < f.log10(Benchmarks[j].energy);
    }
    var k := NearestBenchmarkIsFirstNearest(f, kineticEnergy);
    assert k == 0;
  }

  /** sphericalToCartesian. */
  function SphericalToCartesian(f: Functions, radius: real, theta: real, phi: real): Vec3 {
    Vec3(radius * f.sin(phi) * f.cos(theta), radius * f.cos(phi), radius * f.sin(phi) * f.sin(theta))
  }

  /** The point lies at distance `radius` from the origin. */
  lemma SphericalPointAtRadius(f: Functions, radius: real, theta: real, phi: real)
    requires TrigLaws(f) && SqrtLaws(f)
    requires radius >= 0.0
    ensures Length(f, SphericalToCartesian(f, radius, theta, phi)) == radius
  {
    var st, ct, sp, cp := f.sin(theta), f.cos(theta), f.sin(phi), f.cos(phi);
    var p := SphericalToCartesian(f, radius, theta, phi);
    assert st * st + ct * ct == 1.0;
    assert sp * sp + cp * cp == 1.0;
    calc {
      LengthSq(p);
      (radius * sp * ct) * (radius * sp * ct) + (radius * cp) * (radius * cp) + (radius * sp * st) * (radius * sp * st);
      (radius * radius) * ((sp * sp) * (ct * ct + st * st) + cp * cp);
      (radius * radius) * (sp * sp + cp * cp);
      radius * radius;
    }
    LengthFromSquare(f, p, radius);
  }

  /** The value of one unit of each suffix formatNumber uses. */
  function SuffixUnit(suffix: string): real {
    if suffix == " billion" then 1e9
    else if suffix == " million" then 1e6
    else if suffix == "k" then 1e3
    else 1.0
  }

  /** physics.js formatNumber, without the rendering: the figure shown and its suffix. */
  function FormatNumber(num: real): (r: Scaled)
    ensures r.suffix in {" billion", " million", "k", ""}
    ensures r.value * SuffixUnit(r.suffix) == num
    ensures num < 1e3 <==> r.suffix == ""
    ensures r.suffix != "" ==> 1.0 <= r.value
    ensures r.suffix != " billion" ==> r.value < 1000.0
  {
    if num >= 1e9 then Scaled(num / 1e9, " billion")
    else if num >= 1e6 then Scaled(num / 1e6, " million")
    else if num >= 1e3 then Scaled(num / 1e3, "k")
    else Scaled(num, "")
  }
}
