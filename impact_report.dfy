/** The report model of backend/src/main/java/com/neo/model/ImpactReport.java: the report
    object whose three damage radii follow its kinetic energy, and the infrastructure item
    it lists. */
module Report {
  import opened Common
  import opened Elementary

  /** calculateRadii's scale factor (E / 10^15 J)^0.33. */
  function ScaleFactor(f: Functions, kineticEnergyJoules: real): real {
    f.pow(kineticEnergyJoules / 1e15, 0.33)
  }

  /** The three damage radii in kilometres. */
  datatype Radii = Radii(thermalKm: real, pressureKm: real, shrapnelKm: real)

  /** calculateRadii: half, 1.2 times and twice the scale factor. */
  function RadiiFor(f: Functions, kineticEnergyJoules: real): Radii {
    var scaleFactor := ScaleFactor(f, kineticEnergyJoules);
    Radii(0.5 * scaleFactor, 1.2 * scaleFactor, 2.0 * scaleFactor)
  }

  /** For a non-negative energy the radii are nested (thermal inside pressure inside
      shrapnel), all vanish at zero energy, and each grows with the energy. */
  lemma RadiiNestedAndGrowing(f: Functions, e1: real, e2: real)
    requires PowLaws(f)
    requires 0.0 <= e1 <= e2
    ensures var r := RadiiFor(f, e1);
            0.0 <= r.thermalKm <= r.pressureKm <= r.shrapnelKm
    ensures e1 == 0.0 ==> RadiiFor(f, e1) == Radii(0.0, 0.0, 0.0)
    ensures var r1, r2 := RadiiFor(f, e1), RadiiFor(f, e2);
            r1.thermalKm <= r2.thermalKm && r1.pressureKm <= r2.pressureKm && r1.shrapnelKm <= r2.shrapnelKm
  {
    var s1, s2 := ScaleFactor(f, e1), ScaleFactor(f, e2);
    assert 0.0 <= e1 / 1e15 <= e2 / 1e15;
    assert s1 >= 0.0;
    PowMonotone(f, e1 / 1e15, e2 / 1e15, 0.33);
    assert s1 <= s2;
    if e1 == 0.0 {
      assert e1 / 1e15 == 0.0;
    }
  }

  /** An infrastructure item's six values. */
  datatype ItemValue = ItemValue(itemType: string, name: string, lat: real, lng: real, distanceKm: real, zone: string)

  /** ImpactReport.InfrastructureItem: a mutable record of a classified map feature. */
  class InfrastructureItem {
    var itemType: string
    var name: string
    var lat: real
    var lng: real
    var distanceKm: real
    var zone: string

    /** The six-argument constructor stores its arguments unchanged. */
    constructor(itemType: string, name: string, lat: real, lng: real, distance: real, zone: string)
      ensures Value() == ItemValue(itemType, name, lat, lng, distance, zone)
    {
      this.itemType := itemType;
      this.name := name;
      this.lat := lat;
      this.lng := lng;
      this.distanceKm := distance;
      this.zone := zone;
    }

    /** The item's current values, as one record. */
    function Value(): ItemValue
      reads this
    {
      ItemValue(itemType, name, lat, lng, distanceKm, zone)
    }

    method SetType(itemType: string)
      modifies this`itemType
      ensures Value() == old(Value()).(itemType := itemType)
    {
      this.itemType := itemType;
    }

    method SetName(name: string)
      modifies this`name
      ensures Value() == old(Value()).(name := name)
    {
      this.name := name;
    }

    method SetLat(lat: real)
      modifies this`lat
      ensures Value() == old(Value()).(lat := lat)
    {
      this.lat := lat;
    }

    method SetLng(lng: real)
      modifies this`lng
      ensures Value() == old(Value()).(lng := lng)
    {
      this.lng := lng;
    }

    method SetDistanceKm(d: real)
      modifies this`distanceKm
      ensures Value() == old(Value()).(distanceKm := d)
    {
      this.distanceKm := d;
    }

    method SetZone(zone: string)
      modifies this`zone
      ensures Value() == old(Value()).(zone := zone)
    {
      this.zone := zone;
    }
  }

  /** The values of a list of items, in order. */
  function ValuesOf(items: seq<InfrastructureItem>): seq<ItemValue>
    reads items
  {
    seq(|items|, i reads items requires 0 <= i < |items| => items[i].Value())
  }

  /** ImpactReport: the impact's coordinates and energy, the radii derived from the energy,
      the per-category counts and the list of affected infrastructure (null until set). */
  class ImpactReport {
    const math: Functions
    var latitude: real
    var longitude: real
    var kineticEnergyJoules: real
    var thermalRadiusKm: real
    var pressureRadiusKm: real
    var shrapnelRadiusKm: real
    var hospitalsAffected: int
    var schoolsAffected: int
    var roadsAffected: int
    var industrialAffected: int
    var farmlandAffected: int
    var estimatedPopulation: int
    var infrastructure: Option<seq<InfrastructureItem>>

    /** The class invariant: the radii are those of the current energy. */
    ghost predicate RadiiMatch()
      reads this
    {
      Radii(thermalRadiusKm, pressureRadiusKm, shrapnelRadiusKm) == RadiiFor(math, kineticEnergyJoules)
    }

    /** The counters and the population estimate. */
    function Counts(): (int, int, int, int, int, int)
      reads this
    {
      (hospitalsAffected, schoolsAffected, roadsAffected, industrialAffected, farmlandAffected, estimatedPopulation)
    }

    /** The no-argument constructor: every field at its default.  Zero energy has zero radii, so
        the invariant holds when pow maps 0 to 0. */
    constructor Empty(math: Functions)
      ensures this.math == math
      ensures latitude == 0.0 && longitude == 0.0 && kineticEnergyJoules == 0.0
      ensures thermalRadiusKm == 0.0 && pressureRadiusKm == 0.0 && shrapnelRadiusKm == 0.0
      ensures Counts() == (0, 0, 0, 0, 0, 0) && infrastructure == None
      ensures PowLaws(math) ==> RadiiMatch()
    {
      this.math := math;
      latitude := 0.0;
      longitude := 0.0;
      kineticEnergyJoules := 0.0;
      thermalRadiusKm := 0.0;
      pressureRadiusKm := 0.0;
      shrapnelRadiusKm := 0.0;
      hospitalsAffected := 0;
      schoolsAffected := 0;
      roadsAffected := 0;
      industrialAffected := 0;
      farmlandAffected := 0;
      estimatedPopulation := 0;
      infrastructure := None;
      new;
      assert 0.0 / 1e15 == 0.0;
    }

    /** The three-argument constructor: coordinates and energy stored, radii computed. */
    constructor(math: Functions, lat: real, lng: real, ke: real)
      ensures this.math == math
      ensures latitude == lat && longitude == lng && kineticEnergyJoules == ke
      ensures RadiiMatch()
      ensures Counts() == (0, 0, 0, 0, 0, 0) && infrastructure == None
    {
      this.math := math;
      latitude := lat;
      longitude := lng;
      kineticEnergyJoules := ke;
      hospitalsAffected := 0;
      schoolsAffected := 0;
      roadsAffected := 0;
      industrialAffected := 0;
      farmlandAffected := 0;
      estimatedPopulation := 0;
      infrastructure := None;
      new;
      CalculateRadii();
    }

    /** calculateRadii: recompute the three radii from the energy; nothing else changes. */
    method CalculateRadii()
      modifies this`thermalRadiusKm, this`pressureRadiusKm, this`shrapnelRadiusKm
      ensures RadiiMatch()
    {
      var scaleFactor := math.pow(kineticEnergyJoules / 1e15, 0.33);
      thermalRadiusKm := 0.5 * scaleFactor;
      pressureRadiusKm := 1.2 * scaleFactor;
      shrapnelRadiusKm := 2.0 * scaleFactor;
    }

    /** setKineticEnergyJoules stores the energy and re-establishes the invariant. */
    method SetKineticEnergyJoules(ke: real)
      modifies this`kineticEnergyJoules, this`thermalRadiusKm, this`pressureRadiusKm, this`shrapnelRadiusKm
      ensures kineticEnergyJoules == ke
      ensures RadiiMatch()
    {
      kineticEnergyJoules := ke;
      CalculateRadii();
    }

    method SetLatitude(latitude: real)
      modifies this`latitude
      ensures this.latitude == latitude
      ensures old(RadiiMatch()) ==> RadiiMatch()
    {
      this.latitude := latitude;
    }

    method SetLongitude(longitude: real)
      modifies this`longitude
      ensures this.longitude == longitude
      ensures old(RadiiMatch()) ==> RadiiMatch()
    {
      this.longitude := longitude;
    }

    method SetHospitalsAffected(count: int)
      modifies this`hospitalsAffected
      ensures Counts() == old(Counts()).(0 := count)
      ensures old(RadiiMatch()) ==> RadiiMatch()
    {
      hospitalsAffected := count;
    }

    method SetSchoolsAffected(count: int)
      modifies this`schoolsAffected
      ensures Counts() == old(Counts()).(1 := count)
      ensures old(RadiiMatch()) ==> RadiiMatch()
    {
      schoolsAffected := count;
    }

    method SetRoadsAffected(count: int)
      modifies this`roadsAffected
      ensures Counts() == old(Counts()).(2 := count)
      ensures old(RadiiMatch()) ==> RadiiMatch()
    {
      roadsAffected := count;
    }

    method SetIndustrialAffected(count: int)
      modifies this`industrialAffected
      ensures Counts() == old(Counts()).(3 := count)
      ensures old(RadiiMatch()) ==> RadiiMatch()
    {
      industrialAffected := count;
    }

    method SetFarmlandAffected(count: int)
      modifies this`farmlandAffected
      ensures Counts() == old(Counts()).(4 := count)
      ensures old(RadiiMatch()) ==> RadiiMatch()
    {
      farmlandAffected := count;
    }

    method SetEstimatedPopulation(pop: int)
      modifies this`estimatedPopulation
      ensures Counts() == old(Counts()).(5 := pop)
      ensures old(RadiiMatch()) ==> RadiiMatch()
    {
      estimatedPopulation := pop;
    }

    method SetInfrastructure(items: seq<InfrastructureItem>)
      modifies this`infrastructure
      ensures infrastructure == Some(items)
      ensures old(RadiiMatch()) ==> RadiiMatch()
    {
      infrastructure := Some(items);
    }
  }
}
