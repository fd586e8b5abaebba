/** The decision logic of backend/src/main/java/com/neo/service/OverpassService.java: how one
    Overpass element becomes an infrastructure item (coordinates, tags, type, name, zone), how
    the answer's elements are collected, how the items are counted per category, and how the
    impact report is assembled around the query. */
module Overpass {
  import opened Common
  import opened Elementary
  import Report

  /** A JSON node as the parser sees it.  A number keeps the text Jackson renders for it;
      `JOther` is any other node (null, a boolean, an array). */
  datatype Json = JNumber(value: real, text: string) | JText(text: string) | JObject(fields: map<string, Json>) | JOther

  /** JsonNode.has: an object holding the field. */
  predicate Has(node: Json, key: string) {
    node.JObject? && key in node.fields
  }

  /** JsonNode.get: the field of an object, or null. */
  function Get(node: Json, key: string): (r: Option<Json>)
    ensures r.Some? <==> Has(node, key)
  {
    if Has(node, key) then Some(node.fields[key]) else None
  }

  /** JsonNode.asDouble: the value of a number node, and 0 for any other node. */
  function AsDouble(node: Json): real {
    if node.JNumber? then node.value else 0.0
  }

  /** JsonNode.asText: the text of a text or number node, and the empty text otherwise. */
  function AsText(node: Json): string {
    match node
    case JText(s) => s
    case JNumber(_, s) => s
    case _ => ""
  }

  /** The text of the first of the given keys that the tags hold. */
  function FirstPresent(tags: Json, keys: seq<string>): (r: Option<string>)
    ensures r.None? <==> forall i :: 0 <= i < |keys| ==> !Has(tags, keys[i])
  {
    if |keys| == 0 then None
    else if Has(tags, keys[0]) then Some(AsText(tags.fields[keys[0]]))
    else FirstPresent(tags, keys[1..])
  }

  /** The element's type: amenity, else landuse, else building, else "unknown". */
  function ItemType(tags: Json): string {
    if Has(tags, "amenity") then AsText(tags.fields["amenity"])
    else if Has(tags, "landuse") then AsText(tags.fields["landuse"])
    else if Has(tags, "building") then AsText(tags.fields["building"])
    else "unknown"
  }

  /** The type is the first of amenity, landuse, building that is tagged, and "unknown" when
      none is. */
  lemma ItemTypePriority(tags: Json)
    ensures ItemType(tags) == match FirstPresent(tags, ["amenity", "landuse", "building"])
                              case Some(t) => t
                              case None => "unknown"
  {
    var keys: seq<string> := ["amenity", "landuse", "building"];
    assert keys[1..] == ["landuse", "building"];
    assert keys[1..][1..] == ["building"];
    assert keys[1..][1..][1..] == [];
    if Has(tags, "amenity") {
      assert FirstPresent(tags, keys) == Some(AsText(tags.fields["amenity"]));
    } else if Has(tags, "landuse") {
      assert FirstPresent(tags, keys) == FirstPresent(tags, keys[1..]) == Some(AsText(tags.fields["landuse"]));
    } else if Has(tags, "building") {
      assert FirstPresent(tags, keys) == FirstPresent(tags, keys[1..][1..]) == Some(AsText(tags.fields["building"]));
    } else {
      assert FirstPresent(tags, keys) == FirstPresent(tags, keys[1..][1..][1..]) == None;
    }
  }

  /** The name given to an untagged feature of the given type. */
  function DefaultName(itemType: string): (r: string)
    ensures r == "Unnamed" <==>
            itemType !in {"industrial", "farmland", "farmyard", "factory", "warehouse", "orchard", "vineyard"}
  {
    if itemType == "industrial" then "Industrial Area"
    else if itemType == "farmland" || itemType == "farmyard" then "Agricultural Land"
    else if itemType == "factory" then "Factory"
    else if itemType == "warehouse" then "Warehouse"
    else if itemType == "orchard" then "Orchard"
    else if itemType == "vineyard" then "Vineyard"
    else "Unnamed"
  }

  /** The element's name: name, else name:en, else name:tr, else the type's default. */
  function ItemName(tags: Json, itemType: string): string {
    if Has(tags, "name") then AsText(tags.fields["name"])
    else if Has(tags, "name:en") then AsText(tags.fields["name:en"])
    else if Has(tags, "name:tr") then AsText(tags.fields["name:tr"])
    else DefaultName(itemType)
  }

  /** The name is the first of name, name:en, name:tr that is tagged, and the type's default
      when none is. */
  lemma ItemNamePriority(tags: Json, itemType: string)
    ensures ItemName(tags, itemType) == match FirstPresent(tags, ["name", "name:en", "name:tr"])
                                        case Some(n) => n
                                        case None => DefaultName(itemType)
  {
    var keys: seq<string> := ["name", "name:en", "name:tr"];
    assert keys[1..] == ["name:en", "name:tr"];
    assert keys[1..][1..] == ["name:tr"];
    assert keys[1..][1..][1..] == [];
    if Has(tags, "name") {
      assert FirstPresent(tags, keys) == Some(AsText(tags.fields["name"]));
    } else if Has(tags, "name:en") {
      assert FirstPresent(tags, keys) == FirstPresent(tags, keys[1..]) == Some(AsText(tags.fields["name:en"]));
    } else if Has(tags, "name:tr") {
      assert FirstPresent(tags, keys) == FirstPresent(tags, keys[1..][1..]) == Some(AsText(tags.fields["name:tr"]));
    } else {
      assert FirstPresent(tags, keys) == FirstPresent(tags, keys[1..][1..][1..]) == None;
    }
  }

  /** The damage zone of a distance in km: under 5 thermal, under 12 pressure, else shrapnel;
      every distance falls in exactly one zone. */
  function Zone(distanceKm: real): (r: string)
    ensures r in {"thermal", "pressure", "shrapnel"}
    ensures r == "thermal" <==> distanceKm < 5.0
    ensures r == "pressure" <==> 5.0 <= distanceKm < 12.0
    ensures r == "shrapnel" <==> 12.0 <= distanceKm
  {
    if distanceKm < 5.0 then "thermal" else if distanceKm < 12.0 then "pressure" else "shrapnel"
  }

  /** What parseElement does with one element: an item, null (skipped), or a
      NullPointerException when a "center" lacks "lat" or "lon". */
  datatype Parsed = Item(value: Report.ItemValue) | Skipped | Threw

  /** The great-circle distance in km between two latitude/longitude pairs. */
  type Haversine = (real, real, real, real) -> real

  /** parseElement: coordinates from "center" when present, else from "lat"/"lon" when both
      are present, else null; null also when "tags" is absent; otherwise the classified item. */
  function ParseElement(element: Json, impactLat: real, impactLng: real, haversine: Haversine): Parsed {
    if Has(element, "center") then
      var center := element.fields["center"];
      if !Has(center, "lat") || !Has(center, "lon") then Threw
      else Classify(element, impactLat, impactLng, AsDouble(center.fields["lat"]), AsDouble(center.fields["lon"]), haversine)
    else if Has(element, "lat") && Has(element, "lon") then
      Classify(element, impactLat, impactLng, AsDouble(element.fields["lat"]), AsDouble(element.fields["lon"]), haversine)
    else Skipped
  }

  /** The part of parseElement after the coordinates are known. */
  function Classify(element: Json, impactLat: real, impactLng: real, lat: real, lng: real, haversine: Haversine): Parsed {
    var distance := haversine(impactLat, impactLng, lat, lng);
    match Get(element, "tags")
    case None => Skipped
    case Some(tags) =>
      var itemType := ItemType(tags);
      Item(Report.ItemValue(itemType, ItemName(tags, itemType), lat, lng, distance, Zone(distance)))
  }

  /** The coordinates parseElement reads, when it finds them. */
  function Coordinates(element: Json): Option<(real, real)> {
    if Has(element, "center") then
      var center := element.fields["center"];
      if Has(center, "lat") && Has(center, "lon")
      then Some((AsDouble(center.fields["lat"]), AsDouble(center.fields["lon"])))
      else None
    else if Has(element, "lat") && Has(element, "lon") then
      Some((AsDouble(element.fields["lat"]), AsDouble(element.fields["lon"])))
    else None
  }

  /** parseElement's outcomes: it throws exactly when a center lacks a coordinate; it returns
      null exactly when there is neither a center nor both coordinates, or when the tags are
      missing; and an item carries the coordinates read (from the center first), the
      distance to them, the type, the name and the zone of that distance. */
  lemma ParseElementOutcomes(element: Json, impactLat: real, impactLng: real, haversine: Haversine)
    ensures var p := ParseElement(element, impactLat, impactLng, haversine);
            && (p == Threw <==> Has(element, "center")
                                && !(Has(element.fields["center"], "lat") && Has(element.fields["center"], "lon")))
            && (p == Skipped <==> (!Has(element, "center") && !(Has(element, "lat") && Has(element, "lon")))
                                  || (Coordinates(element).Some? && !Has(element, "tags")))
            && (p.Item? ==>
                  && Coordinates(element).Some? && Has(element, "tags")
                  && var (lat, lng) := Coordinates(element).value;
                     var tags := element.fields["tags"];
                     var distance := haversine(impactLat, impactLng, lat, lng);
                     p.value == Report.ItemValue(ItemType(tags), ItemName(tags, ItemType(tags)), lat, lng, distance, Zone(distance)))
  {
  }

  /** queryOverpass's loop: the items parsed from the elements, in order, skipping nulls; an
      exception ends the loop, keeping the items already collected. */
  function Collected(elements: seq<Json>, impactLat: real, impactLng: real, haversine: Haversine): seq<Report.ItemValue> {
    if |elements| == 0 then []
    else match ParseElement(elements[0], impactLat, impactLng, haversine)
      case Item(v) => [v] + Collected(elements[1..], impactLat, impactLng, haversine)
      case Skipped => Collected(elements[1..], impactLat, impactLng, haversine)
      case Threw => []
  }

  /** No element of the list makes parseElement throw. */
  predicate NoneThrows(elements: seq<Json>, impactLat: real, impactLng: real, haversine: Haversine) {
    forall i :: 0 <= i < |elements| ==> ParseElement(elements[i], impactLat, impactLng, haversine) != Threw
  }

  /** Collecting is done element by element: the items of a list that does not throw come
      first, followed by the items of what comes after it. */
  lemma {:induction false} CollectedConcat(a: seq<Json>, b: seq<Json>, impactLat: real, impactLng: real, haversine: Haversine)
    requires NoneThrows(a, impactLat, impactLng, haversine)
    ensures Collected(a + b, impactLat, impactLng, haversine)
            == Collected(a, impactLat, impactLng, haversine) + Collected(b, impactLat, impactLng, haversine)
  {
    if |a| > 0 {
      assert (a + b)[0] == a[0];
      assert (a + b)[1..] == a[1..] + b;
      assert ParseElement(a[0], impactLat, impactLng, haversine) != Threw;
      assert NoneThrows(a[1..], impactLat, impactLng, haversine) by {
        forall i | 0 <= i < |a[1..]|
          ensures ParseElement(a[1..][i], impactLat, impactLng, haversine) != Threw
        {
          assert a[1..][i] == a[i + 1];
        }
      }
      CollectedConcat(a[1..], b, impactLat, impactLng, haversine);
    } else {
      assert a + b == b;
    }
  }

  /** An element that throws drops itself and everything after it. */
  lemma ThrowingElementTruncates(a: seq<Json>, e: Json, b: seq<Json>, impactLat: real, impactLng: real, haversine: Haversine)
    requires NoneThrows(a, impactLat, impactLng, haversine)
    requires ParseElement(e, impactLat, impactLng, haversine) == Threw
    ensures Collected(a + [e] + b, impactLat, impactLng, haversine) == Collected(a, impactLat, impactLng, haversine)
  {
    CollectedConcat(a, [e] + b, impactLat, impactLng, haversine);
    assert a + [e] + b == a + ([e] + b);
  }

  /** Every collected item is the parse of one of the elements, and there are never more
      items than elements. */
  lemma {:induction false} CollectedAreParsedElements(elements: seq<Json>, impactLat: real, impactLng: real, haversine: Haversine)
    ensures |Collected(elements, impactLat, impactLng, haversine)| <= |elements|
    ensures forall v :: v in Collected(elements, impactLat, impactLng, haversine) ==>
              exists i :: 0 <= i < |elements| && ParseElement(elements[i], impactLat, impactLng, haversine) == Item(v)
  {
    if |elements| > 0 {
      CollectedAreParsedElements(elements[1..], impactLat, impactLng, haversine);
      forall v | v in Collected(elements, impactLat, impactLng, haversine)
        ensures exists i :: 0 <= i < |elements| && ParseElement(elements[i], impactLat, impactLng, haversine) == Item(v)
      {
        if ParseElement(elements[0], impactLat, impactLng, haversine) == Item(v) {
          assert ParseElement(elements[0], impactLat, impactLng, haversine) == Item(v);
        } else {
          var i :| 0 <= i < |elements[1..]| && ParseElement(elements[1..][i], impactLat, impactLng, haversine) == Item(v);
          assert elements[1..][i] == elements[i + 1];
        }
      }
    }
  }

  /** The values queryOverpass returns for an answer: none for a failed request, and the
      collected elements otherwise. */
  function Found(response: Option<seq<Json>>, impactLat: real, impactLng: real, haversine: Haversine): seq<Report.ItemValue> {
    match response
    case None => []
    case Some(elements) => Collected(elements, impactLat, impactLng, haversine)
  }

  /** The loop's rule on parse outcomes: keep items, skip nulls, stop at an exception. */
  function Kept(outcomes: seq<Parsed>): seq<Report.ItemValue> {
    if |outcomes| == 0 then []
    else match outcomes[0]
      case Item(v) => [v] + Kept(outcomes[1..])
      case Skipped => Kept(outcomes[1..])
      case Threw => []
  }

  /** The parse outcome of every element, in order. */
  function ParseAll(elements: seq<Json>, impactLat: real, impactLng: real, haversine: Haversine): (r: seq<Parsed>)
    ensures |r| == |elements|
    ensures forall k :: 0 <= k < |elements| ==> r[k] == ParseElement(elements[k], impactLat, impactLng, haversine)
  {
    if |elements| == 0 then []
    else [ParseElement(elements[0], impactLat, impactLng, haversine)] + ParseAll(elements[1..], impactLat, impactLng, haversine)
  }

  /** Collecting the elements is keeping their parse outcomes. */
  lemma {:induction false} CollectedIsKept(elements: seq<Json>, impactLat: real, impactLng: real, haversine: Haversine)
    ensures Collected(elements, impactLat, impactLng, haversine) == Kept(ParseAll(elements, impactLat, impactLng, haversine))
  {
    if |elements| > 0 {
      CollectedIsKept(elements[1..], impactLat, impactLng, haversine);
      var all := ParseAll(elements, impactLat, impactLng, haversine);
      assert all[1..] == ParseAll(elements[1..], impactLat, impactLng, haversine);
    }
  }

  /** new InfrastructureItem(type, name, lat, lng, distance, zone) for the parsed values. */
  method NewItem(v: Report.ItemValue) returns (item: Report.InfrastructureItem)
    ensures fresh(item) && item.Value() == v
  {
    item := new Report.InfrastructureItem(v.itemType, v.name, v.lat, v.lng, v.distanceKm, v.zone);
  }

  /** The outcome of parsing each element with `parse`, in order. */
  function Outcomes(elements: seq<Json>, parse: Json -> Parsed): seq<Parsed> {
    seq(|elements|, k requires 0 <= k < |elements| => parse(elements[k]))
  }

  /** queryOverpass's loop over the answer's elements, with `parse` standing for
      parseElement: each item becomes a new object, a null is skipped, and an exception
      ends the loop with the items gathered so far. */
  method CollectItems(elements: seq<Json>, parse: Json -> Parsed) returns (items: seq<Report.InfrastructureItem>)
    ensures forall i :: 0 <= i < |items| ==> fresh(items[i])
    ensures Report.ValuesOf(items) == Kept(Outcomes(elements, parse))
  {
    items := [];
    ghost var outcomes := Outcomes(elements, parse);
    ghost var values: seq<Report.ItemValue> := [];
    var i := 0;
    while i < |elements|
      invariant 0 <= i <= |elements|
      invariant |items| == |values|
      invariant forall k :: 0 <= k < |items| ==> fresh(items[k]) && items[k].Value() == values[k]
      invariant values + Kept(outcomes[i..]) == Kept(outcomes)
    {
      var item := parse(elements[i]);
      assert outcomes[i..][0] == item;
      assert outcomes[i..][1..] == outcomes[i + 1..];
      if item.Threw? {
        break;
      }
      if item.Item? {
        var created := NewItem(item.value);
        items := items + [created];
        values := values + [item.value];
      }
      i := i + 1;
    }
    assert values == Kept(outcomes) by {
      if i < |elements| {
        assert Kept(outcomes[i..]) == [];
      } else {
        assert outcomes[i..] == [];
      }
    }
    assert Report.ValuesOf(items) == values;
  }

  /** queryOverpass after the HTTP exchange: `response` is the "elements" array of a 200
      answer, or None when the request failed, the status was not 200, or the answer had no
      element array.  The items are new objects holding the collected values in order. */
  method QueryOverpass(impactLat: real, impactLng: real, response: Option<seq<Json>>, haversine: Haversine)
    returns (items: seq<Report.InfrastructureItem>)
    ensures forall i :: 0 <= i < |items| ==> fresh(items[i])
    ensures Report.ValuesOf(items) == Found(response, impactLat, impactLng, haversine)
  {
    items := [];
    if response.None? {
      return;
    }
    var elements := response.value;
    var parse := e => ParseElement(e, impactLat, impactLng, haversine);
    items := CollectItems(elements, parse);
    CollectedIsKept(elements, impactLat, impactLng, haversine);
    assert Outcomes(elements, parse) == ParseAll(elements, impactLat, impactLng, haversine);
  }

  const ClinicTypes: set<string> := {"hospital", "clinic", "doctors"}
  const SchoolTypes: set<string> := {"school", "university", "kindergarten"}
  const IndustrialTypes: set<string> := {"industrial", "factory", "warehouse"}
  const FarmlandTypes: set<string> := {"farm", "farmland", "farmyard"}

  /** How many of the types belong to the category. */
  function CountIn(types: seq<string>, category: set<string>): (r: nat)
    ensures r <= |types|
  {
    if |types| == 0 then 0
    else CountIn(types[..|types| - 1], category) + (if types[|types| - 1] in category then 1 else 0)
  }

  /** The types of the values, in order. */
  function TypesOf(values: seq<Report.ItemValue>): seq<string> {
    seq(|values|, i requires 0 <= i < |values| => values[i].itemType)
  }

  /** The four category counts of a list of types. */
  datatype Counts = Counts(clinics: nat, schools: nat, industrial: nat, farmland: nat)

  function CountsOf(types: seq<string>): Counts {
    Counts(CountIn(types, ClinicTypes), CountIn(types, SchoolTypes),
           CountIn(types, IndustrialTypes), CountIn(types, FarmlandTypes))
  }

  /** A type outside a category leaves its count unchanged, one inside raises it by one. */
  lemma CountInAppend(types: seq<string>, t: string, category: set<string>)
    ensures CountIn(types + [t], category) == CountIn(types, category) + (if t in category then 1 else 0)
  {
    assert (types + [t])[..|types|] == types;
  }

  /** The types counted in some category. */
  const Categorised: set<string> := ClinicTypes + SchoolTypes + IndustrialTypes + FarmlandTypes

  /** How many of the types are outside the category. */
  function CountOutside(types: seq<string>, category: set<string>): (r: nat)
    ensures r + CountIn(types, category) == |types|
  {
    if |types| == 0 then 0
    else CountOutside(types[..|types| - 1], category) + (if types[|types| - 1] in category then 0 else 1)
  }

  /** Each type lies in at most one category, and in none exactly when it is not categorised. */
  lemma CategoriesDisjoint(t: string)
    ensures (if t in ClinicTypes then 1 else 0) + (if t in SchoolTypes then 1 else 0)
            + (if t in IndustrialTypes then 1 else 0) + (if t in FarmlandTypes then 1 else 0)
            + (if t in Categorised then 0 else 1) == 1
  {
  }

  /** The categories are disjoint, so together they count each item once at most: the four
      counts and the number of uncategorised items (college, fire_station, police, orchard,
      vineyard, unknown, ...) add up to the number of items. */
  lemma {:induction false} CategoriesCountEachItemOnce(types: seq<string>)
    ensures var c := CountsOf(types);
            c.clinics + c.schools + c.industrial + c.farmland + CountOutside(types, Categorised) == |types|
    ensures var c := CountsOf(types);
            c.clinics + c.schools + c.industrial + c.farmland <= |types|
  {
    if |types| > 0 {
      CategoriesCountEachItemOnce(types[..|types| - 1]);
      CategoriesDisjoint(types[|types| - 1]);
    }
  }

  /** generateImpactReport's counting loop over the items' types. */
  method CountCategories(items: seq<Report.InfrastructureItem>) returns (counts: Counts)
    ensures counts == CountsOf(TypesOf(Report.ValuesOf(items)))
  {
    ghost var types := TypesOf(Report.ValuesOf(items));
    var clinics, schools, industrial, farmland := 0, 0, 0, 0;
    for i := 0 to |items|
      invariant Counts(clinics, schools, industrial, farmland) == CountsOf(types[..i])
    {
      var t := items[i].itemType;
      assert types[..i + 1] == types[..i] + [t];
      CountInAppend(types[..i], t, ClinicTypes);
      CountInAppend(types[..i], t, SchoolTypes);
      CountInAppend(types[..i], t, IndustrialTypes);
      CountInAppend(types[..i], t, FarmlandTypes);
      if t == "hospital" || t == "clinic" || t == "doctors" {
        clinics := clinics + 1;
      }
      if t == "school" || t == "university" || t == "kindergarten" {
        schools := schools + 1;
      }
      if t == "industrial" || t == "factory" || t == "warehouse" {
        industrial := industrial + 1;
      }
      if t == "farm" || t == "farmland" || t == "farmyard" {
        farmland := farmland + 1;
      }
    }
    assert types[..|items|] == types;
    counts := Counts(clinics, schools, industrial, farmland);
  }

  /** The Overpass search radius in metres: the shrapnel radius, kept within 2 km and 15 km. */
  function SearchRadiusMeters(shrapnelRadiusKm: real): (r: real)
    ensures 2000.0 <= r <= 15000.0
    ensures 2000.0 <= shrapnelRadiusKm * 1000.0 <= 15000.0 ==> r == shrapnelRadiusKm * 1000.0
    ensures shrapnelRadiusKm * 1000.0 < 2000.0 ==> r == 2000.0
    ensures shrapnelRadiusKm * 1000.0 > 15000.0 ==> r == 15000.0
  {
    Max(Min(shrapnelRadiusKm * 1000.0, 15000.0), 2000.0)
  }

  /** The end of generateImpactReport: the four counts and the item list stored through the
      report's setters; roads and population stay at zero and the rest of the report as it was. */
  method StoreFindings(report: Report.ImpactReport, infrastructure: seq<Report.InfrastructureItem>, counts: Counts)
    requires report.Counts() == (0, 0, 0, 0, 0, 0)
    modifies report
    ensures report.Counts() == (counts.clinics, counts.schools, 0, counts.industrial, counts.farmland, 0)
    ensures report.infrastructure == Some(infrastructure)
    ensures report.latitude == old(report.latitude) && report.longitude == old(report.longitude)
    ensures report.kineticEnergyJoules == old(report.kineticEnergyJoules)
    ensures old(report.RadiiMatch()) ==> report.RadiiMatch()
  {
    report.SetHospitalsAffected(counts.clinics);
    report.SetSchoolsAffected(counts.schools);
    report.SetIndustrialAffected(counts.industrial);
    report.SetFarmlandAffected(counts.farmland);
    report.SetInfrastructure(infrastructure);
  }

  /** generateImpactReport: a report for the impact, the infrastructure within the search
      radius, and the four category counts taken from exactly that list.  `overpass` gives
      the answer's elements for a search radius, as for queryOverpass. */
  method GenerateImpactReport(math: Functions, lat: real, lng: real, kineticEnergyJoules: real,
                              overpass: real -> Option<seq<Json>>, haversine: Haversine)
    returns (report: Report.ImpactReport)
    ensures fresh(report)
    ensures report.math == math
    ensures report.latitude == lat && report.longitude == lng && report.kineticEnergyJoules == kineticEnergyJoules
    ensures report.RadiiMatch()
    ensures report.infrastructure.Some?
    ensures var items := report.infrastructure.value;
            && (forall i :: 0 <= i < |items| ==> fresh(items[i]))
            && Report.ValuesOf(items)
               == Found(overpass(SearchRadiusMeters(Report.RadiiFor(math, kineticEnergyJoules).shrapnelKm)), lat, lng, haversine)
            && var c := CountsOf(TypesOf(Report.ValuesOf(items)));
               report.Counts() == (c.clinics, c.schools, 0, c.industrial, c.farmland, 0)
  {
    report := new Report.ImpactReport(math, lat, lng, kineticEnergyJoules);
    var searchRadiusMeters := Min(report.shrapnelRadiusKm * 1000.0, 15000.0);
    searchRadiusMeters := Max(searchRadiusMeters, 2000.0);
    assert searchRadiusMeters == SearchRadiusMeters(Report.RadiiFor(math, kineticEnergyJoules).shrapnelKm);
    var infrastructure := QueryOverpass(lat, lng, overpass(searchRadiusMeters), haversine);
    var counts := CountCategories(infrastructure);
    StoreFindings(report, infrastructure, counts);
  }
}
