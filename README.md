# NEO impact simulator: a Dafny model of its simulation core and impact report

The repository is a near-Earth-object visualiser with an impact laboratory. The browser shows
asteroids on hyperbolic fly-by arcs around a scaled Earth. A clicked asteroid can be sent down
a curved path to the surface. On impact, a Java backend asks OpenStreetMap's Overpass service
what lies around the chosen point and sorts it into damage zones.

This project models the parts of that system that decide something:

- **`Simulation.SimulationContext`** (`frontend/js/main.js`). A class whose fields are the
  state the page keeps between frames:
  - the meteorites, each a `Body` record;
  - their trajectory lines;
  - the one impact run in progress, if any;
  - the simulation time, the time scale and the pause flag.

  Its methods are:
  - creating the meteorites;
  - the time slider, pause and reset controls;
  - the orbital tick;
  - starting an impact;
  - one frame of the impact animation.

  Each method is proved against a pure specification function (`Tick`, `ResetAll`,
  `AnimateFrame`). The properties sit in lemmas about those functions. A run names its body by
  its position (`slot`) in the meteorite list, standing for the mesh reference the page holds.
- **`Orbit`** (`frontend/js/main.js`). The hyperbolic position, the sampled and filtered
  trajectory line, and the curved impact path that is projected onto a minimum radius.
- **`Physics`** (`frontend/js/physics.js`). Distance scaling, mass and kinetic energy, the
  Hiroshima equivalent, scientific notation, the crater, earthquake and destruction formulas,
  the nearest historical benchmark (first wins on ties), spherical coordinates and number
  suffixes.
- **`ImpactLab`** (`frontend/js/impact-lab.js`). The impact page's own kinetic energy, its
  damage circles, marker colours, icons, and energy and number labels. Each is related to its
  counterpart elsewhere.
- **`Report`** (`ImpactReport.java`). The report class keeps one invariant, `RadiiMatch`: its
  three radii are those of its energy. Its infrastructure item is a mutable class.
- **`Overpass`** (`OverpassService.java`). How one Overpass element becomes an item
  (coordinates, tags, type, name, zone), the loop that collects items, the per-category
  counting, the search-radius clamp, and the assembly of the report.

`Common`, `Elementary` and `Vectors` hold shared helpers.

Numbers are Dafny reals. The elementary functions `sqrt`, `sin`, `cos`, `acos`, `log10` and
`pow` are fields of a value `Elementary.Functions`, passed in as a parameter. The laws they
obey are predicates (`TrigLaws`, `SqrtLaws`, `AcosLaws`, `LogLaws`, `PowLaws`, `PowTenLaws`). Only the
lemmas that need a law require it. Random draws, the network answer and the haversine
distance are parameters too.

Where the code does something one might not expect, the model follows the code:

- `triggerImpact` does not refuse a second trigger. It overwrites a run already in progress
  (frontend/js/main.js:429). `TriggerImpact` does the same.
- The reset button also rewinds the body that is currently falling
  (frontend/js/main.js:136-142). `ResetAll` does not skip it.
- `updateImpactAnimation` reads `path[pathIndex]` without guarding the lower bound. A negative
  progress would read `undefined` and throw. `AnimateFrame` has a `Threw` outcome for that
  case. `AnimateFrameOutcomes` shows it never happens when progress, speed and delta are not
  negative.
- `parseElement` throws a NullPointerException when an element has a `center` without `lat`
  or `lon`. The exception is caught around the whole query loop, so the items parsed before it
  are kept and the rest are dropped (`Collected`, `ThrowingElementTruncates`).

## Model

| member | source | states |
|---|---|---|
| Physics.ScaleDistanceClampsThenGrows | frontend/js/physics.js:5-9 | every distance at or below 10000 km scales to 4; the scaled distance never decreases as the distance grows, and is never below 4 |
| Physics.ScaledEarthRadiusIsFour | frontend/js/physics.js:11-13 | the scaled Earth radius is the clamped value 4, because 6371 km is below the clamp |
| Physics.KineticEnergyPolynomial | frontend/js/physics.js:15-25 | the kinetic energy is the polynomial 2.5e8·π·d³·v² |
| Physics.KineticEnergyPositive | frontend/js/physics.js:15-25 | the energy is positive for a positive diameter and a non-zero speed |
| Physics.KineticEnergyScaling | frontend/js/physics.js:15-25 | doubling the speed quadruples the energy; doubling the diameter multiplies it by eight |
| Physics.KilometreBodyAtTwentyKmPerSecond | frontend/js/physics.js:15-25 | a 1 km body at 20 km/s carries 1e20·π J |
| Physics.JoulesToHiroshimas | frontend/js/physics.js:27-29 | the result times 6.3e13 J is the energy given |
| Physics.FormatEnergyMantissaInRange | frontend/js/physics.js:31-35 | for a positive energy, with Math.pow(10, n) equal to 10^n, the mantissa E / Math.pow(10, floor(log10 E)) lies in [1, 10), and mantissa × 10^exponent is the energy |
| Physics.ConsequencesGrowWithEnergy | frontend/js/physics.js:37-50 | crater diameter, earthquake magnitude and destruction radius never decrease as the energy grows |
| Physics.ReduceFindsFirstNearest | frontend/js/physics.js:75-83 | the reduce over the table returns the entry at an index that minimises the log-distance and comes first among the minimal entries |
| Physics.NearestBenchmarkIsFirstNearest | frontend/js/physics.js:52-83 | findNearestBenchmark returns the earliest benchmark whose log10 energy is closest to the impact's |
| Physics.SmallImpactsMatchChelyabinsk | frontend/js/physics.js:52-83 | every positive energy up to Chelyabinsk's yields "Chelyabinsk (2013)" |
| Physics.SphericalPointAtRadius | frontend/js/physics.js:85-91 | the Cartesian point lies at exactly the given non-negative radius from the origin |
| Physics.FormatNumber | frontend/js/physics.js:99-104 | the suffix is " billion", " million", "k" or none; figure × unit is the number; no suffix exactly below 1000; a suffixed figure is at least 1, and below 1000 unless in billions |
| Orbit.EarthVisualRadiusValue | frontend/js/main.js:18 | the drawn Earth radius is 0.4 × the scaled Earth radius, which is 1.6 |
| Orbit.MaxAnglePositive | frontend/js/main.js:361 | the arc's limit 0.85·acos(-1/e) is positive for the eccentricities drawn (e ≥ 1.5) |
| Orbit.HyperbolicPositionAtRadius | frontend/js/main.js:262-286 | the position is null exactly when 1 + e·cos ν is 0 or the radius p(1+e)/(1+e·cos ν) is negative; otherwise the point is at that radius from the origin, because both rotations keep lengths |
| Orbit.RotatedLength | frontend/js/main.js:269-285 | turning a point of the orbital plane about the x axis by the inclination and then about the y axis by the rotation keeps its distance from the origin, whenever the cosines and sines lie on the unit circle |
| Orbit.Placed | frontend/js/main.js:288-301 | updating a meteor's position changes nothing but its position |
| Orbit.SampleAnglesIncrease | frontend/js/main.js:307-311 | the 121 sample angles increase strictly from -maxAngle to maxAngle |
| Orbit.VisibleSamplesAreFilteredSweep | frontend/js/main.js:303-324 | the kept points are exactly the non-null samples closer than 100, in increasing sample order, each at its sample's position |
| Orbit.CreateTrajectoryLine | frontend/js/main.js:303-326 | the line is absent when fewer than two samples survive the filter, and otherwise holds exactly the surviving samples |
| Orbit.GenerateCurvedImpactPath | frontend/js/main.js:371-401 | the path has n+1 points; the last is the origin; point i is the lerped, bent point, projected onto the minimum radius when it falls inside it |
| Orbit.ImpactPathStartsAtBody | frontend/js/main.js:371-401 | the path starts at the body when the body is at least the minimum radius away |
| Orbit.ImpactPathStaysAboveSurface | frontend/js/main.js:379-396 | every interior non-origin point is at least the minimum radius away, and a point that came out shorter ends at exactly that radius |
| Simulation.InitialAngle | frontend/js/main.js:234-235 | a phase in [0, 1) puts the initial true anomaly in [-maxAngle, -maxAngle/2) |
| Simulation.NewBodyStartsOnArc | frontend/js/main.js:215-250 | a new meteor keeps its object's id, has its true anomaly equal to its initial one, and starts on the visible arc |
| Simulation.NewBody | frontend/js/main.js:217-253 | the meteor built from the object and the five random draws (eccentricity, rotation, inclination, phase, speed), then moved onto its orbit, carries the object's id and has a hyperbolic orbit (eccentricity at least 1.5) |
| Simulation.LineFor | frontend/js/main.js:326-342 | createTrajectoryLine adds at most one line for a body, tagged with the body's id and holding at least two points |
| Simulation.LinesOfBelongToBodies | frontend/js/main.js:255-257 | the lines added for a list of bodies number at most the bodies; each has at least two points and carries one of the bodies' ids; every body whose sweep keeps two points has a line that the id lookup of triggerImpact finds |
| Simulation.DrawnBodyStartsOnArc | frontend/js/main.js:217-250 | the drawn parameters place the body on the incoming half of its arc |
| Simulation.DrawnAngleOnArc | frontend/js/main.js:234-249 | the drawn initial angle lies in [-maxAngle, -maxAngle/2) and the current angle starts equal to it |
| Simulation.Advance | frontend/js/main.js:351-365 | the orbital step changes only the true anomaly and the position |
| Simulation.AdvanceStaysOnArc | frontend/js/main.js:351-365 | the increment is non-negative; the angle grows by exactly the increment and stays at most maxAngle, or it overshoots and wraps to exactly -maxAngle; the body stays on its arc |
| Simulation.TickKeepsBodiesOnArc | frontend/js/main.js:351-367 | the tick skips the animating meteor, changes only angle and position of the others, and keeps every meteor on its arc |
| Simulation.MovingOrRemovingKeepsWellFormed | frontend/js/main.js:456-477 | moving the falling body or removing it keeps every remaining meteor well-formed |
| Simulation.Rewind | frontend/js/main.js:138-141 | reset sets the true anomaly to the initial one and changes only it and the position |
| Simulation.ResetIdempotent | frontend/js/main.js:136-142 | resetting twice equals resetting once, and reset keeps every meteor on its arc |
| Simulation.SpeedMultiplier | frontend/js/main.js:446-448 | the fall speeds up by a factor in (1, 5] |
| Simulation.ProgressNeverDecreases | frontend/js/main.js:446-450 | for non-negative speed and delta the path progress never decreases |
| Simulation.PositionOnPath | frontend/js/main.js:452-463 | the lerp between bracketing path points is undefined exactly for a negative progress on a path of more than one point; full progress gives the last point |
| Simulation.PositionOnPathAtNode | frontend/js/main.js:452-463 | progress k/(n-1) lands exactly on path point k |
| Simulation.PositionBetweenNodes | frontend/js/main.js:452-463 | below full progress, a progress on a node gives that node |
| Simulation.FullProgressArrives | frontend/js/main.js:452-466 | at full progress the body is at the path's last point and counts as arrived |
| Simulation.AnimateFrameOutcomes | frontend/js/main.js:441-481 | a frame never throws for non-negative progress, speed and delta; on arrival exactly the falling body is removed, the others keep their order, and the run is cleared; otherwise progress stays in [old, 1) and only the falling body's position changes |
| Simulation.SimulationContext.constructor | frontend/js/main.js:8-16 | the page starts with no meteorites, no lines, no run, time 0, scale 1, not paused |
| Simulation.SimulationContext.CreateMeteoriteObjects | frontend/js/main.js:215-259 | one new meteor per object is appended in order, the lines appended are exactly the lines of the new meteors in the same order (one per meteor whose sweep keeps at least two points, tagged with its id), and the other state is unchanged |
| Simulation.SimulationContext.AddMeteorite | frontend/js/main.js:216-258 | one callback of the forEach pushes the object's new meteor and keeps the lines equal to those of the meteors pushed since the given start |
| Simulation.SimulationContext.AddTrajectoryLine | frontend/js/main.js:303-342 | the body's line is pushed when its sweep keeps at least two points, and nothing else changes |
| Simulation.SimulationContext.SetTimeScale | frontend/js/main.js:124-128 | the time scale becomes the slider value / 100 and nothing else changes |
| Simulation.SimulationContext.TogglePause | frontend/js/main.js:130-134 | the pause flag flips and nothing else changes |
| Simulation.SimulationContext.Reset | frontend/js/main.js:136-142 | the time becomes 0 and every meteor, the animating one included, is rewound; nothing else changes |
| Simulation.SimulationContext.UpdateMeteorMovement | frontend/js/main.js:345-369 | while paused neither the time nor any meteor changes; otherwise the time grows by exactly delta × scale and the meteors are ticked |
| Simulation.SimulationContext.TriggerImpact | frontend/js/main.js:403-439 | an unknown id changes nothing; otherwise its line is removed, and a run is set (overwriting any) at that meteor with progress 0, base speed velocity·0.002 and a 101-point curved path ending at the origin; the meteor stays |
| Simulation.SimulationContext.UpdateImpactAnimation | frontend/js/main.js:441-481 | with no run nothing happens; otherwise the new meteors, run and outcome are exactly one animation frame of the old state |
| Report.RadiiNestedAndGrowing | backend/src/main/java/com/neo/model/ImpactReport.java:33-38 | for a non-negative energy the radii are non-negative and nested (thermal ≤ pressure ≤ shrapnel); they are 0 at zero energy, and each grows with the energy |
| Report.ImpactReport.Empty | backend/src/main/java/com/neo/model/ImpactReport.java:23-24 | every field has its default, and the radii invariant holds |
| Report.ImpactReport.constructor | backend/src/main/java/com/neo/model/ImpactReport.java:26-31 | the coordinates and energy are stored, the radii are 0.5, 1.2 and 2.0 × (E/1e15)^0.33, the counts are 0 and there is no list |
| Report.ImpactReport.CalculateRadii | backend/src/main/java/com/neo/model/ImpactReport.java:33-38 | only the three radius fields change, and they become those of the current energy |
| Report.ImpactReport.SetKineticEnergyJoules | backend/src/main/java/com/neo/model/ImpactReport.java:60-63 | the energy is stored and the radii invariant is re-established |
| Report.ImpactReport.SetLatitude | backend/src/main/java/com/neo/model/ImpactReport.java:44-46 | only the latitude changes, to the value given; the invariant is kept |
| Report.ImpactReport.SetLongitude | backend/src/main/java/com/neo/model/ImpactReport.java:52-54 | only the longitude changes, to the value given; the invariant is kept |
| Report.ImpactReport.SetHospitalsAffected | backend/src/main/java/com/neo/model/ImpactReport.java:81-83 | only the hospital count changes, to the value given; the invariant is kept |
| Report.ImpactReport.SetSchoolsAffected | backend/src/main/java/com/neo/model/ImpactReport.java:89-91 | only the school count changes, to the value given; the invariant is kept |
| Report.ImpactReport.SetRoadsAffected | backend/src/main/java/com/neo/model/ImpactReport.java:97-99 | only the road count changes, to the value given; the invariant is kept |
| Report.ImpactReport.SetIndustrialAffected | backend/src/main/java/com/neo/model/ImpactReport.java:105-107 | only the industrial count changes, to the value given; the invariant is kept |
| Report.ImpactReport.SetFarmlandAffected | backend/src/main/java/com/neo/model/ImpactReport.java:113-115 | only the farmland count changes, to the value given; the invariant is kept |
| Report.ImpactReport.SetEstimatedPopulation | backend/src/main/java/com/neo/model/ImpactReport.java:121-123 | only the population estimate changes, to the value given; the invariant is kept |
| Report.ImpactReport.SetInfrastructure | backend/src/main/java/com/neo/model/ImpactReport.java:129-131 | only the list changes, to the one given; the invariant is kept |
| Report.InfrastructureItem.constructor | backend/src/main/java/com/neo/model/ImpactReport.java:144-151 | the six arguments are stored unchanged |
| Report.InfrastructureItem.SetType | backend/src/main/java/com/neo/model/ImpactReport.java:157-159 | only the type changes, to the value given |
| Report.InfrastructureItem.SetName | backend/src/main/java/com/neo/model/ImpactReport.java:165-167 | only the name changes, to the value given |
| Report.InfrastructureItem.SetLat | backend/src/main/java/com/neo/model/ImpactReport.java:173-175 | only the latitude changes, to the value given |
| Report.InfrastructureItem.SetLng | backend/src/main/java/com/neo/model/ImpactReport.java:181-183 | only the longitude changes, to the value given |
| Report.InfrastructureItem.SetDistanceKm | backend/src/main/java/com/neo/model/ImpactReport.java:189-191 | only the distance changes, to the value given |
| Report.InfrastructureItem.SetZone | backend/src/main/java/com/neo/model/ImpactReport.java:197-199 | only the zone changes, to the value given |
| Overpass.Get | backend/src/main/java/com/neo/service/OverpassService.java:141-155 | a field is found exactly when the node is an object that has it |
| Overpass.FirstPresent | backend/src/main/java/com/neo/service/OverpassService.java:157-175 | nothing is found exactly when none of the keys is tagged |
| Overpass.ItemTypePriority | backend/src/main/java/com/neo/service/OverpassService.java:157-167 | the type is amenity's, else landuse's, else building's, else "unknown" |
| Overpass.DefaultName | backend/src/main/java/com/neo/service/OverpassService.java:158-190 | "Unnamed" is the default exactly for types other than industrial, farmland, farmyard, factory, warehouse, orchard and vineyard |
| Overpass.ItemNamePriority | backend/src/main/java/com/neo/service/OverpassService.java:169-190 | the name is name's, else name:en's, else name:tr's, else the type's default |
| Overpass.Zone | backend/src/main/java/com/neo/service/OverpassService.java:193 | thermal below 5 km, pressure in [5, 12), shrapnel from 12 on, and every distance gets exactly one zone |
| Overpass.ParseElementOutcomes | backend/src/main/java/com/neo/service/OverpassService.java:137-196 | an element throws exactly when its center lacks a coordinate; it is dropped exactly when it has no usable coordinates or no tags; otherwise the item has the coordinates (center first), their distance, the type, the name and that distance's zone |
| Overpass.CollectedConcat | backend/src/main/java/com/neo/service/OverpassService.java:120-125 | without exceptions, collecting a concatenation is collecting each part in turn |
| Overpass.ThrowingElementTruncates | backend/src/main/java/com/neo/service/OverpassService.java:113-134 | an element that throws ends the loop, keeping the items collected before it |
| Overpass.CollectedAreParsedElements | backend/src/main/java/com/neo/service/OverpassService.java:120-125 | every item is the parse of some element, and there are never more items than elements |
| Overpass.QueryOverpass | backend/src/main/java/com/neo/service/OverpassService.java:70-135 | a failed request gives no items; otherwise the new items hold the non-null parsed elements in order, up to the first exception |
| Overpass.CollectItems | backend/src/main/java/com/neo/service/OverpassService.java:120-131 | the loop turns every non-null parse into a new item, in element order, skips nulls, and keeps what it has gathered when a parse throws |
| Overpass.CountIn | backend/src/main/java/com/neo/service/OverpassService.java:44-55 | a category never counts more items than there are |
| Overpass.CountInAppend | backend/src/main/java/com/neo/service/OverpassService.java:45-55 | an item raises its category's count by one and leaves the other counts alone |
| Overpass.CountOutside | backend/src/main/java/com/neo/service/OverpassService.java:44-55 | the items outside a category and those inside it add up to all items |
| Overpass.CategoriesDisjoint | backend/src/main/java/com/neo/service/OverpassService.java:46-54 | each type is in at most one category, and in none exactly when it is not categorised |
| Overpass.CategoriesCountEachItemOnce | backend/src/main/java/com/neo/service/OverpassService.java:44-55 | the four counts plus the uncategorised items (college, police, orchard, unknown, ...) equal the number of items, so the counts sum to at most that number |
| Overpass.CountCategories | backend/src/main/java/com/neo/service/OverpassService.java:44-55 | each counter is the number of items whose type is in its set |
| Overpass.SearchRadiusMeters | backend/src/main/java/com/neo/service/OverpassService.java:39-40 | the search radius lies in [2000, 15000] m and equals the shrapnel radius in metres whenever that lies in the range, else the nearer bound |
| Overpass.GenerateImpactReport | backend/src/main/java/com/neo/service/OverpassService.java:32-68 | a new report for the point and energy keeps its radii invariant; its list is exactly the queried list for the clamped radius, and its four counts are taken from that list, with roads and population left at 0 |
| Overpass.StoreFindings | backend/src/main/java/com/neo/service/OverpassService.java:57-61 | the four counts and the item list are stored, roads and population stay at 0, and the coordinates, energy and radius invariant are kept |
| ImpactLab.KineticEnergyAgrees | frontend/js/impact-lab.js:49-56 | the impact page's kinetic energy equals physics.js's for every input |
| ImpactLab.DamageRadiiMatchReport | frontend/js/impact-lab.js:82-87 | the circle radii are 1000 × the report's radii, and nested for a non-negative energy |
| ImpactLab.MarkerColour | frontend/js/impact-lab.js:162 | red exactly for thermal, orange exactly for pressure, yellow for every other zone |
| ImpactLab.MarkerColourFollowsDistance | frontend/js/impact-lab.js:162 | a marker is red under 5 km, orange in [5, 12) km and yellow beyond, matching its zone |
| ImpactLab.InfrastructureIconLookup | frontend/js/impact-lab.js:176-197 | a listed type shows its table icon, never the pin; any other type shows the pin |
| ImpactLab.CountedTypesHaveIcons | frontend/js/impact-lab.js:176-197 | every type the report counts in a category has an icon of its own |
| ImpactLab.FormatEnergy | frontend/js/impact-lab.js:226-231 | EJ from 1e18, PJ in [1e15, 1e18), TJ in [1e12, 1e15), GJ below; figure × unit is the energy |
| ImpactLab.FormatEnergyFigureInRange | frontend/js/impact-lab.js:226-231 | a PJ or TJ figure lies in [1, 1000), an EJ figure is at least 1, a GJ figure is below 1000 |
| ImpactLab.FormatNumber | frontend/js/impact-lab.js:220-224 | M from 1e6, K in [1e3, 1e6), plain below; figure × unit is the number |
| ImpactLab.FormatNumbersAgreeBelowBillion | frontend/js/impact-lab.js:220-224 | below a billion both formatNumber copies show the same figure with corresponding suffixes; from a billion on, the impact page shows 1000 × physics.js's figure |

## Left out

- The exact values of sqrt, sin, cos, acos, log10 and pow. They are parameters constrained by
  stated laws. The model is over reals: IEEE rounding, NaN and Infinity are not modelled.
- The haversine distance (OverpassService.java:198-207) is a parameter.
- Rendering: the Three.js scene, skybox, lights, camera, raycasting, highlighting and the
  animation loop. The frame delta, clamped to at most 0.1 s at frontend/js/main.js:494, is an
  input.
- DOM and Leaflet code: markers, circles, overlays and the dashboard. Text is not rendered
  either (`toFixed`, `toString`, string concatenation): the format functions return the
  figure and its suffix.
- `Math.random`: the draws of createMeteoriteObjects are an input in [0, 1).
  randomSpherePosition (frontend/js/physics.js:93-97) is random only, so it is not modelled.
- The network: the HTTP request and the query text of queryOverpass, and impact-lab.js's
  queryImpact. The answer's element array, or its absence, is a parameter.
- Jackson's numeric text parsing. `AsDouble` gives 0 for a non-number node. `AsText` of a
  boolean or null node gives "" rather than "true", "false" or "null".
- Java's `int` and `long` widths: counts are unbounded integers.
- The no-argument InfrastructureItem constructor (ImpactReport.java:141-142). It leaves its
  strings null, which this model has no value for.
- Getters. Fields are read directly.
- The trajectory line's material and scene object (frontend/js/main.js:328-342). A line is its
  list of points and its meteor's id.
- Mesh identity. A run refers to its meteor by index, and removing the meteor on arrival
  removes that index.
- Prototype keys in getInfrastructureIcon. `icons["constructor"]` yields a function in
  JavaScript; the model looks up only the table's own keys.
- Orbit.GenerateCurvedImpactPath: requires at least one segment. The page always calls it with
  100, and with 0 the source would return just the origin.
