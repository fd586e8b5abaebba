/** The computations of frontend/js/impact-lab.js: its own copy of the kinetic energy, the
    damage radii drawn around the impact point, the colour of an infrastructure marker, the
    icon of an infrastructure type, and the figures its energy and number labels show. */
module ImpactLab {
  import opened Common
  import opened Elementary
  import Physics
  import Report
  import Overpass

  /** calculateKineticEnergy as impact-lab.js writes it: volume first, then mass = volume ×
      density, then ½ m v² with the speed in m/s. */
  function KineticEnergy(f: Functions, diameterMeters: real, velocityKmPerSec: real): real {
    var radius := diameterMeters / 2.0;
    var volume := (4.0 / 3.0) * PI * f.pow(radius, 3.0);
    var density := 3000.0;
    var mass := volume * density;
    var velocityMPerSec := velocityKmPerSec * 1000.0;
    0.5 * mass * f.pow(velocityMPerSec, 2.0)
  }

  /** The two copies of calculateKineticEnergy agree on every input, whatever pow is. */
  lemma KineticEnergyAgrees(f: Functions, diameterMeters: real, velocityKmPerSec: real)
    ensures KineticEnergy(f, diameterMeters, velocityKmPerSec) == Physics.KineticEnergy(f, diameterMeters, velocityKmPerSec)
  {
    var volume := (4.0 / 3.0) * PI * f.pow(diameterMeters / 2.0, 3.0);
    assert volume * 3000.0 == Physics.EstimateMass(f, diameterMeters);
  }

  /** setImpactLocation's three circle radii, in metres. */
  function DamageRadiiMeters(f: Functions, kineticEnergyJoules: real): Report.Radii {
    var scaleFactor := f.pow(kineticEnergyJoules / 1e15, 0.33);
    Report.Radii(0.5 * scaleFactor * 1000.0, 1.2 * scaleFactor * 1000.0, 2.0 * scaleFactor * 1000.0)
  }

  /** The circles drawn on the map are the report's radii in metres, so for a non-negative
      energy they are nested: thermal inside pressure inside shrapnel. */
  lemma DamageRadiiMatchReport(f: Functions, kineticEnergyJoules: real)
    requires PowLaws(f)
    requires 0.0 <= kineticEnergyJoules
    ensures var m, k := DamageRadiiMeters(f, kineticEnergyJoules), Report.RadiiFor(f, kineticEnergyJoules);
            && m.thermalKm == 1000.0 * k.thermalKm
            && m.pressureKm == 1000.0 * k.pressureKm
            && m.shrapnelKm == 1000.0 * k.shrapnelKm
    ensures var m := DamageRadiiMeters(f, kineticEnergyJoules);
            0.0 <= m.thermalKm <= m.pressureKm <= m.shrapnelKm
  {
    Report.RadiiNestedAndGrowing(f, kineticEnergyJoules, kineticEnergyJoules);
  }

  const Red := "#ff3333"
  const Orange := "#ff8833"
  const Yellow := "#ffcc33"

  /** addInfrastructureMarker's colour for a zone. */
  function MarkerColour(zone: string): (r: string)
    ensures r == Red <==> zone == "thermal"
    ensures r == Orange <==> zone == "pressure"
    ensures r == Yellow <==> zone != "thermal" && zone != "pressure"
  {
    if zone == "thermal" then Red else if zone == "pressure" then Orange else Yellow
  }

  /** A marker takes the colour of the circle its distance falls in: red inside the thermal
      radius of 5 km, orange up to the pressure radius of 12 km, yellow beyond. */
  lemma MarkerColourFollowsDistance(distanceKm: real)
    ensures MarkerColour(Overpass.Zone(distanceKm)) == Red <==> distanceKm < 5.0
    ensures MarkerColour(Overpass.Zone(distanceKm)) == Orange <==> 5.0 <= distanceKm < 12.0
    ensures MarkerColour(Overpass.Zone(distanceKm)) == Yellow <==> 12.0 <= distanceKm
  {
  }

  /** The pin shown for a type without an icon. */
  const Pin := "\U{1F4CD}"

  /** getInfrastructureIcon's table. */
  const Icons: map<string, string> := map[
    "hospital" := "\U{1F3E5}",
    "clinic" := "\U{1F3E5}",
    "doctors" := "\U{2695}\U{FE0F}",
    "school" := "\U{1F3EB}",
    "university" := "\U{1F393}",
    "kindergarten" := "\U{1F9D2}",
    "college" := "\U{1F393}",
    "fire_station" := "\U{1F692}",
    "police" := "\U{1F694}",
    "industrial" := "\U{1F3ED}",
    "factory" := "\U{1F3ED}",
    "warehouse" := "\U{1F4E6}",
    "farm" := "\U{1F33E}",
    "farmland" := "\U{1F33E}",
    "farmyard" := "\U{1F69C}",
    "orchard" := "\U{1F333}",
    "vineyard" := "\U{1F347}"
  ]

  /** getInfrastructureIcon: the table's entry when it is there and not empty, the pin
      otherwise. */
  function InfrastructureIcon(itemType: string): string {
    if itemType in Icons && Icons[itemType] != "" then Icons[itemType] else Pin
  }

  /** A listed type shows its own icon, never the pin; any other type shows the pin. */
  lemma InfrastructureIconLookup(itemType: string)
    ensures itemType in Icons ==> InfrastructureIcon(itemType) == Icons[itemType] != Pin
    ensures itemType !in Icons ==> InfrastructureIcon(itemType) == Pin
  {
  }

  /** Every type the report counts in a category has an icon of its own. */
  lemma CountedTypesHaveIcons(itemType: string)
    requires itemType in Overpass.Categorised
    ensures InfrastructureIcon(itemType) != Pin
  {
    assert itemType in Icons;
  }

  /** The value of one unit of each suffix formatEnergy uses. */
  function EnergyUnit(suffix: string): real {
    if suffix == " EJ" then 1e18
    else if suffix == " PJ" then 1e15
    else if suffix == " TJ" then 1e12
    else 1e9
  }

  /** formatEnergy, without the rendering: the figure shown and its unit. */
  function FormatEnergy(joules: real): (r: Scaled)
    ensures r.suffix in {" EJ", " PJ", " TJ", " GJ"}
    ensures r.value * EnergyUnit(r.suffix) == joules
    ensures r.suffix == " EJ" <==> 1e18 <= joules
    ensures r.suffix == " PJ" <==> 1e15 <= joules < 1e18
    ensures r.suffix == " TJ" <==> 1e12 <= joules < 1e15
    ensures r.suffix == " GJ" <==> joules < 1e12
  {
    if joules >= 1e18 then Scaled(joules / 1e18, " EJ")
    else if joules >= 1e15 then Scaled(joules / 1e15, " PJ")
    else if joules >= 1e12 then Scaled(joules / 1e12, " TJ")
    else Scaled(joules / 1e9, " GJ")
  }

  /** Below the exajoule the figure shown lies in [1, 1000), except for energies under a
      terajoule, which are shown in gigajoules whatever their size. */
  lemma FormatEnergyFigureInRange(joules: real)
    ensures var r := FormatEnergy(joules);
            r.suffix in {" PJ", " TJ"} ==> 1.0 <= r.value < 1000.0
    ensures var r := FormatEnergy(joules);
            r.suffix == " EJ" ==> 1.0 <= r.value
    ensures var r := FormatEnergy(joules);
            r.suffix == " GJ" ==> r.value < 1000.0
  {
  }

  /** The value of one unit of each suffix formatNumber uses. */
  function NumberUnit(suffix: string): real {
    if suffix == "M" then 1e6 else if suffix == "K" then 1e3 else 1.0
  }

  /** formatNumber, without the rendering: the figure shown and its suffix. */
  function FormatNumber(num: real): (r: Scaled)
    ensures r.suffix in {"M", "K", ""}
    ensures r.value * NumberUnit(r.suffix) == num
    ensures r.suffix == "M" <==> 1e6 <= num
    ensures r.suffix == "K" <==> 1e3 <= num < 1e6
    ensures r.suffix == "" <==> num < 1e3
  {
    if num >= 1e6 then Scaled(num / 1e6, "M")
    else if num >= 1e3 then Scaled(num / 1e3, "K")
    else Scaled(num, "")
  }

  /** Below a billion the two formatNumber copies show the same figure, the millions and
      thousands only spelled differently; from a billion on physics.js switches to billions
      while impact-lab.js keeps counting millions. */
  lemma FormatNumbersAgreeBelowBillion(num: real)
    ensures num < 1e9 ==> FormatNumber(num).value == Physics.FormatNumber(num).value
    ensures num < 1e9 ==> (FormatNumber(num).suffix == "M" <==> Physics.FormatNumber(num).suffix == " million")
    ensures num < 1e9 ==> (FormatNumber(num).suffix == "K" <==> Physics.FormatNumber(num).suffix == "k")
    ensures 1e9 <= num ==> FormatNumber(num).value == 1000.0 * Physics.FormatNumber(num).value
  {
  }
}
