/** Address to taxi-zone resolution on the backend: the borough lists built
    from the zone table, the JFK flat-rate test, the airport keyword
    shortcuts, the borough read from the geocoder's address components, and
    the nearest-centroid search. The geocoder and the haversine distance are
    parameters: a `Geocode` value is what the geocoding call returned (or
    that it raised), and `Distance` gives the distance from the geocoded
    point to a zone's centroid, `None` when that computation raises or is
    NaN (either way the zone is skipped). */
module Zones {
  import opened Text

  const DefaultZone: int := 161
  const JfkZone: int := 132
  const LaGuardiaZone: int := 138
  const NewarkZone: int := 1

  /** The keys of `borough_zones`, in their declared order. */
  const BoroughNames: seq<string> := ["Manhattan", "Brooklyn", "Queens", "Bronx", "Staten Island", "EWR"]

  /** One line of the taxi-zone table. */
  datatype ZoneRow = ZoneRow(locationId: int, borough: string)

  /** One entry of a geocoding result's `address_components`. */
  datatype Component = Component(longName: string, types: seq<string>)

  datatype Place = Place(lat: real, lng: real, components: seq<Component>)

  datatype Geocode = GeocodeFailed | Geocoded(places: seq<Place>)

  type Distance = int -> Option<real>

  /** The zone table and the distance from a point to each zone's centroid. */
  datatype Geography = Geography(table: seq<ZoneRow>, distanceFrom: (real, real) -> Distance)

  // ---------------------------------------------------------------------
  // The zone table

  /** The keys of `zone_centroids`, one per table row in file order (a
      repeated LocationID is kept here, where the dict keeps it once). */
  function TableIds(table: seq<ZoneRow>): (ids: seq<int>)
    ensures |ids| == |table|
    ensures forall i :: 0 <= i < |table| ==> ids[i] == table[i].locationId
  {
    seq(|table|, i requires 0 <= i < |table| => table[i].locationId)
  }

  ghost predicate ListedIn(table: seq<ZoneRow>, b: string, z: int)
  {
    exists i :: 0 <= i < |table| && table[i].borough == b && table[i].locationId == z
  }

  /** The ids the table lists under borough `b`, in file order. */
  function ZonesIn(table: seq<ZoneRow>, b: string): (ids: seq<int>)
    ensures forall z :: z in ids <==> ListedIn(table, b, z)
    decreases |table|
  {
    if table == [] then []
    else
      var prefix := table[..|table| - 1];
      var last := table[|table| - 1];
      var ids := ZonesIn(prefix, b) + (if last.borough == b then [last.locationId] else []);
      assert forall z :: ListedIn(prefix, b, z) ==> ListedIn(table, b, z) by {
        forall z | ListedIn(prefix, b, z) ensures ListedIn(table, b, z) {
          var i :| 0 <= i < |prefix| && prefix[i].borough == b && prefix[i].locationId == z;
          assert table[i] == prefix[i];
        }
      }
      assert forall z :: ListedIn(table, b, z) ==> ListedIn(prefix, b, z) || (last.borough == b && z == last.locationId) by {
        forall z | ListedIn(table, b, z) ensures ListedIn(prefix, b, z) || (last.borough == b && z == last.locationId) {
          var i :| 0 <= i < |table| && table[i].borough == b && table[i].locationId == z;
          if i < |prefix| { assert prefix[i] == table[i]; }
        }
      }
      ids
  }

  /** `borough_zones`: each of the six boroughs with the ids listed under it. */
  function BoroughZonesOf(table: seq<ZoneRow>): map<string, seq<int>>
  {
    map b | b in BoroughNames :: ZonesIn(table, b)
  }

  /** The loop that fills `borough_zones` row by row at start-up. */
  method BuildBoroughZones(table: seq<ZoneRow>) returns (zones: map<string, seq<int>>)
    ensures zones.Keys == set b | b in BoroughNames
    ensures forall b :: b in zones ==> zones[b] == ZonesIn(table, b)
  {
    zones := map b | b in BoroughNames :: [];
    var i := 0;
    while i < |table|
      invariant 0 <= i <= |table|
      invariant zones.Keys == set b | b in BoroughNames
      invariant forall b :: b in zones ==> zones[b] == ZonesIn(table[..i], b)
    {
      var row := table[i];
      assert table[..i + 1][..i] == table[..i];
      if row.borough in zones {
        zones := zones[row.borough := zones[row.borough] + [row.locationId]];
      }
      i := i + 1;
    }
    assert table[..i] == table;
  }

  /** `is_jfk_flat_rate`: one end is JFK and the other a Manhattan zone. */
  function IsJfkFlatRate(pu: int, dropoff: int, table: seq<ZoneRow>): (r: bool)
    ensures r <==> ((pu == JfkZone && ListedIn(table, "Manhattan", dropoff))
                    || (dropoff == JfkZone && ListedIn(table, "Manhattan", pu)))
  {
    assert BoroughNames[0] == "Manhattan";
    var manhattan := BoroughZonesOf(table)["Manhattan"];
    (pu == JfkZone && dropoff in manhattan) || (dropoff == JfkZone && pu in manhattan)
  }

  lemma JfkFlatRateSymmetric(pu: int, dropoff: int, table: seq<ZoneRow>)
    ensures IsJfkFlatRate(pu, dropoff, table) == IsJfkFlatRate(dropoff, pu, table)
  {
  }

  // ---------------------------------------------------------------------
  // Airport shortcuts

  /** The keyword rules tried, in order, on the lower-cased address before
      any geocoding: JFK, then LaGuardia, then Newark airport. */
  function AirportShortcut(address: string): (zone: Option<int>)
    ensures zone == Some(JfkZone) <==>
      Contains(Lower(address), "jfk") || Contains(Lower(address), "john f kennedy")
    ensures zone == Some(LaGuardiaZone) <==>
      zone != Some(JfkZone) && (Contains(Lower(address), "laguardia") || Contains(Lower(address), "la guardia"))
    ensures zone == Some(NewarkZone) <==>
      zone != Some(JfkZone) && zone != Some(LaGuardiaZone)
      && Contains(Lower(address), "newark") && Contains(Lower(address), "airport")
    ensures zone.Some? ==> zone.value in {JfkZone, LaGuardiaZone, NewarkZone}
  {
    var a := Lower(address);
    if Contains(a, "jfk") || Contains(a, "john f kennedy") then Some(JfkZone)
    else if Contains(a, "laguardia") || Contains(a, "la guardia") then Some(LaGuardiaZone)
    else if Contains(a, "newark") && Contains(a, "airport") then Some(NewarkZone)
    else None
  }

  lemma {:induction false} LowerIdempotent(s: string)
    ensures Lower(Lower(s)) == Lower(s)
  {
    if s != [] {
      LowerIdempotent(s[1..]);
    }
  }

  /** The shortcuts ignore letter case: an address and its lower-cased form
      resolve alike. */
  lemma ShortcutIgnoresCase(address: string)
    ensures AirportShortcut(address) == AirportShortcut(Lower(address))
  {
    LowerIdempotent(address);
  }

  // ---------------------------------------------------------------------
  // Borough from the address components

  predicate IsSublocality(c: Component)
  {
    "political" in c.types && "sublocality_level_1" in c.types
  }

  predicate IsCountyArea(c: Component)
  {
    "administrative_area_level_2" in c.types && "political" in c.types
  }

  /** The first of `names` that occurs inside `area`. */
  function FirstBoroughIn(area: string, names: seq<string>): (b: Option<string>)
    ensures b.Some? ==> b.value in names && Contains(area, b.value)
    ensures b.Some? ==>
      exists k :: 0 <= k < |names| && names[k] == b.value && (forall j :: 0 <= j < k ==> !Contains(area, names[j]))
    ensures b.None? ==> forall k :: 0 <= k < |names| ==> !Contains(area, names[k])
  {
    if names == [] then None
    else if Contains(area, names[0]) then Some(names[0])
    else
      var b := FirstBoroughIn(area, names[1..]);
      assert forall k :: 1 <= k < |names| ==> names[k] == names[1..][k - 1];
      if b.Some? then
        var k :| 0 <= k < |names[1..]| && names[1..][k] == b.value && (forall j :: 0 <= j < k ==> !Contains(area, names[1..][j]));
        assert names[k + 1] == b.value;
        b
      else
        b
  }

  /** The borough after looking at one component that is not a sublocality:
      a county-level area naming a borough replaces it; anything else keeps it. */
  function AfterComponent(c: Component, current: Option<string>): Option<string>
  {
    if IsCountyArea(c) then
      match FirstBoroughIn(c.longName, BoroughNames)
      case Some(b) => Some(b)
      case None => current
    else current
  }

  /** The borough the component scan settles on, starting from `current`:
      a sublocality's name ends the scan; county areas update it on the way. */
  function BoroughScan(components: seq<Component>, current: Option<string>): (b: Option<string>)
    ensures b == current || (b.Some? && b.value in BoroughNames)
         || exists i :: 0 <= i < |components| && IsSublocality(components[i]) && b == Some(components[i].longName)
  {
    if components == [] then current
    else if IsSublocality(components[0]) then Some(components[0].longName)
    else
      var b := BoroughScan(components[1..], AfterComponent(components[0], current));
      assert forall i :: 1 <= i < |components| ==> components[i] == components[1..][i - 1];
      b
  }

  /** A sublocality component decides the borough, whatever came before it. */
  lemma {:induction false} FirstSublocalityDecides(components: seq<Component>, current: Option<string>, i: nat)
    requires i < |components| && IsSublocality(components[i])
    requires forall j :: 0 <= j < i ==> !IsSublocality(components[j])
    ensures BoroughScan(components, current) == Some(components[i].longName)
  {
    if i > 0 {
      FirstSublocalityDecides(components[1..], AfterComponent(components[0], current), i - 1);
    }
  }

  /** With no sublocality, the borough is always one of the six names or none. */
  lemma {:induction false} CountyBoroughIsKnown(components: seq<Component>, current: Option<string>)
    requires forall j :: 0 <= j < |components| ==> !IsSublocality(components[j])
    requires current.Some? ==> current.value in BoroughNames
    ensures var b := BoroughScan(components, current); b.Some? ==> b.value in BoroughNames
  {
    if components != [] {
      CountyBoroughIsKnown(components[1..], AfterComponent(components[0], current));
    }
  }

  /** The component loop of `get_location_id`, with its inner loop over the
      borough names and both of its `break`s. */
  method DetectBorough(components: seq<Component>) returns (borough: Option<string>)
    ensures borough == BoroughScan(components, None)
  {
    borough := None;
    var i := 0;
    while i < |components|
      invariant 0 <= i <= |components|
      invariant BoroughScan(components, None) == BoroughScan(components[i..], borough)
    {
      var c := components[i];
      assert components[i..][0] == c && components[i..][1..] == components[i + 1..];
      if IsSublocality(c) {
        borough := Some(c.longName);
        break;
      }
      if IsCountyArea(c) {
        ghost var before := borough;
        var j := 0;
        while j < |BoroughNames|
          invariant 0 <= j <= |BoroughNames|
          invariant borough == before
          invariant FirstBoroughIn(c.longName, BoroughNames) == FirstBoroughIn(c.longName, BoroughNames[j..])
        {
          assert BoroughNames[j..][1..] == BoroughNames[j + 1..];
          if Contains(c.longName, BoroughNames[j]) {
            borough := Some(BoroughNames[j]);
            break;
          }
          j := j + 1;
        }
        assert borough == AfterComponent(c, before);
      }
      i := i + 1;
    }
  }

  // ---------------------------------------------------------------------
  // Nearest zone

  /** The running minimum: `None` stands for the initial infinity. */
  datatype Best = Best(distance: Option<real>, zone: int)

  /** `distance < min_distance`, false when the distance is missing. */
  predicate Closer(d: Option<real>, best: Option<real>)
  {
    d.Some? && (best.None? || d.value < best.value)
  }

  /** The minimum after visiting the candidates in order, strict `<` keeping
      the earlier of two equal distances. */
  function Scan(candidates: seq<int>, dist: Distance): Best
  {
    if candidates == [] then Best(None, DefaultZone)
    else
      var prev := Scan(candidates[..|candidates| - 1], dist);
      var z := candidates[|candidates| - 1];
      if Closer(dist(z), prev.distance) then Best(dist(z), z) else prev
  }

  /** Candidate `k` has a distance no larger than any other, and strictly
      smaller than every candidate before it. */
  ghost predicate IsFirstNearest(candidates: seq<int>, dist: Distance, k: int)
  {
    && 0 <= k < |candidates|
    && dist(candidates[k]).Some?
    && (forall j :: 0 <= j < |candidates| && dist(candidates[j]).Some? ==>
          dist(candidates[k]).value <= dist(candidates[j]).value)
    && (forall j :: 0 <= j < k && dist(candidates[j]).Some? ==>
          dist(candidates[k]).value < dist(candidates[j]).value)
  }

  ghost predicate NoneMeasured(candidates: seq<int>, dist: Distance)
  {
    forall i :: 0 <= i < |candidates| ==> dist(candidates[i]).None?
  }

  /** A first measured candidate appended after unmeasured ones is the first nearest. */
  lemma FirstMeasuredIsNearest(candidates: seq<int>, dist: Distance)
    requires candidates != [] && dist(candidates[|candidates| - 1]).Some?
    requires NoneMeasured(candidates[..|candidates| - 1], dist)
    ensures IsFirstNearest(candidates, dist, |candidates| - 1)
  {
    var n := |candidates|;
    assert forall j :: 0 <= j < n - 1 ==> candidates[..n - 1][j] == candidates[j];
  }

  /** A candidate strictly closer than the prefix's first nearest takes over. */
  lemma CloserTakesOver(candidates: seq<int>, dist: Distance, k: int)
    requires candidates != [] && IsFirstNearest(candidates[..|candidates| - 1], dist, k)
    requires Closer(dist(candidates[|candidates| - 1]), dist(candidates[k]))
    ensures IsFirstNearest(candidates, dist, |candidates| - 1)
  {
    var n := |candidates|;
    assert forall j :: 0 <= j < n - 1 ==> candidates[..n - 1][j] == candidates[j];
  }

  /** A candidate that is not strictly closer leaves the first nearest in place. */
  lemma NotCloserKeeps(candidates: seq<int>, dist: Distance, k: int)
    requires candidates != [] && IsFirstNearest(candidates[..|candidates| - 1], dist, k)
    requires !Closer(dist(candidates[|candidates| - 1]), dist(candidates[k]))
    ensures IsFirstNearest(candidates, dist, k)
  {
    var n := |candidates|;
    assert forall j :: 0 <= j < n - 1 ==> candidates[..n - 1][j] == candidates[j];
  }

  /** The scan answers the default zone when no candidate has a distance, and
      otherwise the first candidate of least distance. */
  lemma {:induction false} ScanFindsFirstNearest(candidates: seq<int>, dist: Distance)
    ensures NoneMeasured(candidates, dist) ==> Scan(candidates, dist) == Best(None, DefaultZone)
    ensures !NoneMeasured(candidates, dist) ==>
      exists k :: IsFirstNearest(candidates, dist, k)
               && Scan(candidates, dist) == Best(dist(candidates[k]), candidates[k])
  {
    if candidates != [] {
      var n := |candidates|;
      var prefix := candidates[..n - 1];
      var z := candidates[n - 1];
      ScanFindsFirstNearest(prefix, dist);
      var prev := Scan(prefix, dist);
      if NoneMeasured(prefix, dist) {
        if dist(z).Some? {
          FirstMeasuredIsNearest(candidates, dist);
        } else {
          assert forall j :: 0 <= j < n - 1 ==> prefix[j] == candidates[j];
          assert NoneMeasured(candidates, dist);
        }
      } else {
        var k :| IsFirstNearest(prefix, dist, k) && prev == Best(dist(prefix[k]), prefix[k]);
        assert prefix[k] == candidates[k];
        if Closer(dist(z), prev.distance) {
          CloserTakesOver(candidates, dist, k);
        } else {
          NotCloserKeeps(candidates, dist, k);
        }
      }
    }
  }

  /** `find_nearest_zone` over the candidates in iteration order. */
  method FindNearestZone(candidates: seq<int>, dist: Distance) returns (zone: int)
    ensures zone == Scan(candidates, dist).zone
    ensures NoneMeasured(candidates, dist) ==> zone == DefaultZone
    ensures !NoneMeasured(candidates, dist) ==>
      exists k :: IsFirstNearest(candidates, dist, k) && zone == candidates[k]
  {
    var minDistance: Option<real> := None;
    zone := DefaultZone;
    for i := 0 to |candidates|
      invariant Best(minDistance, zone) == Scan(candidates[..i], dist)
    {
      assert candidates[..i + 1][..i] == candidates[..i];
      var d := dist(candidates[i]);
      if Closer(d, minDistance) {
        minDistance := d;
        zone := candidates[i];
      }
    }
    assert candidates[..|candidates|] == candidates;
    ScanFindsFirstNearest(candidates, dist);
  }

  /** The restricted zone list filtered to ids the centroid table knows. */
  function KnownZones(zones: seq<int>, ids: seq<int>): (r: seq<int>)
    ensures |r| <= |zones|
    ensures forall z :: z in r <==> z in zones && z in ids
  {
    if zones == [] then []
    else (if zones[0] in ids then [zones[0]] else []) + KnownZones(zones[1..], ids)
  }

  /** Filtering drops nothing from a list whose ids are all in the table. */
  lemma {:induction false} KnownZonesKeepsKnown(zones: seq<int>, ids: seq<int>)
    requires forall i :: 0 <= i < |zones| ==> zones[i] in ids
    ensures KnownZones(zones, ids) == zones
  {
    if zones != [] {
      assert forall i :: 0 <= i < |zones| - 1 ==> zones[1..][i] == zones[i + 1];
      KnownZonesKeepsKnown(zones[1..], ids);
      assert [zones[0]] + zones[1..] == zones;
    }
  }

  /** A borough's list is taken from the table, so the filter keeps all of it. */
  lemma BoroughZonesAreKnown(table: seq<ZoneRow>, b: string)
    ensures KnownZones(ZonesIn(table, b), TableIds(table)) == ZonesIn(table, b)
  {
    var zones := ZonesIn(table, b);
    forall k | 0 <= k < |zones| ensures zones[k] in TableIds(table) {
      var z := zones[k];
      assert z in zones && ListedIn(table, b, z);
      var i :| 0 <= i < |table| && table[i].borough == b && table[i].locationId == z;
      assert TableIds(table)[i] == z;
    }
    KnownZonesKeepsKnown(ZonesIn(table, b), TableIds(table));
  }

  /** The candidates searched once the borough scan is done: the borough's
      own zones when it names one of the six, else the whole table. */
  function SearchCandidates(borough: Option<string>, table: seq<ZoneRow>): seq<int>
  {
    var byBorough := BoroughZonesOf(table);
    if borough.Some? && borough.value != "" && borough.value in byBorough then
      KnownZones(byBorough[borough.value], TableIds(table))
    else
      TableIds(table)
  }

  /** The NYC bounding box of the geocoded point. */
  predicate InNyc(lat: real, lng: real)
  {
    40.4774 <= lat <= 40.9176 && -74.2591 <= lng <= -73.7004
  }

  /** What `get_location_id` answers; `None` is Python's `None`. A missing
      address makes `lower()` raise, which the handler turns into 161. */
  function LocationOf(address: Option<string>, geocode: Geocode, geo: Geography): (zone: Option<int>)
    ensures zone.None? <==>
      && address.Some? && AirportShortcut(address.value).None?
      && geocode.Geocoded? && |geocode.places| > 0
      && !InNyc(geocode.places[0].lat, geocode.places[0].lng)
    ensures address.None? ==> zone == Some(DefaultZone)
    ensures address.Some? && AirportShortcut(address.value).Some? ==> zone == AirportShortcut(address.value)
    ensures (address.Some? && AirportShortcut(address.value).None?
             && (geocode.GeocodeFailed? || geocode.places == [])) ==> zone == Some(DefaultZone)
  {
    if address.None? then Some(DefaultZone)
    else if AirportShortcut(address.value).Some? then AirportShortcut(address.value)
    else match geocode
      case GeocodeFailed => Some(DefaultZone)
      case Geocoded(places) =>
        if places == [] then Some(DefaultZone)
        else
          var p := places[0];
          if !InNyc(p.lat, p.lng) then None
          else
            var candidates := SearchCandidates(BoroughScan(p.components, None), geo.table);
            Some(Scan(candidates, geo.distanceFrom(p.lat, p.lng)).zone)
  }

  /** The search answers the default or one of its candidates. */
  lemma ScanPicksCandidate(candidates: seq<int>, dist: Distance)
    ensures Scan(candidates, dist).zone == DefaultZone || Scan(candidates, dist).zone in candidates
  {
    ScanFindsFirstNearest(candidates, dist);
    if !NoneMeasured(candidates, dist) {
      var k :| IsFirstNearest(candidates, dist, k) && Scan(candidates, dist).zone == candidates[k];
      assert candidates[k] in candidates;
    }
  }

  /** The candidates are zones of the table, and exactly a borough's own
      zones when the scan found one of the six boroughs. */
  lemma CandidatesAreKnown(borough: Option<string>, table: seq<ZoneRow>)
    ensures forall z :: z in SearchCandidates(borough, table) ==> z in TableIds(table)
    ensures borough.Some? && borough.value in BoroughNames ==>
      SearchCandidates(borough, table) == ZonesIn(table, borough.value)
  {
    if borough.Some? && borough.value in BoroughNames {
      assert borough.value in BoroughZonesOf(table);
      assert borough.value != "";
      BoroughZonesAreKnown(table, borough.value);
    }
  }

  /** Every zone id answered is the default, an airport, or a zone of the
      table; when the address names a known borough, one of that borough's. */
  lemma ResolvedZoneIsKnown(address: Option<string>, geocode: Geocode, geo: Geography)
    ensures var zone := LocationOf(address, geocode, geo);
      zone.Some? ==> zone.value in {DefaultZone, JfkZone, LaGuardiaZone, NewarkZone} || zone.value in TableIds(geo.table)
    ensures address.Some? && AirportShortcut(address.value).None? && geocode.Geocoded? && geocode.places != [] ==>
      var p := geocode.places[0];
      var b := BoroughScan(p.components, None);
      InNyc(p.lat, p.lng) && b.Some? && b.value in BoroughNames ==>
        LocationOf(address, geocode, geo) == Some(DefaultZone)
        || LocationOf(address, geocode, geo).value in ZonesIn(geo.table, b.value)
  {
    if address.Some? && AirportShortcut(address.value).None? && geocode.Geocoded? && geocode.places != [] {
      var p := geocode.places[0];
      if InNyc(p.lat, p.lng) {
        var b := BoroughScan(p.components, None);
        ScanPicksCandidate(SearchCandidates(b, geo.table), geo.distanceFrom(p.lat, p.lng));
        CandidatesAreKnown(b, geo.table);
      }
    }
  }

  /** `get_location_id`. */
  method GetLocationId(address: Option<string>, geocode: Geocode, geo: Geography) returns (zone: Option<int>)
    ensures zone == LocationOf(address, geocode, geo)
  {
    if address.None? {
      return Some(DefaultZone);
    }
    var shortcut := AirportShortcut(address.value);
    if shortcut.Some? {
      return shortcut;
    }
    if geocode.GeocodeFailed? || geocode.places == [] {
      return Some(DefaultZone);
    }
    var place := geocode.places[0];
    if !InNyc(place.lat, place.lng) {
      return None;
    }
    var borough := DetectBorough(place.components);
    var byBorough := BoroughZonesOf(geo.table);
    var dist := geo.distanceFrom(place.lat, place.lng);
    var nearest;
    if borough.Some? && borough.value != "" && borough.value in byBorough {
      nearest := FindNearestZone(KnownZones(byBorough[borough.value], TableIds(geo.table)), dist);
    } else {
      nearest := FindNearestZone(TableIds(geo.table), dist);
    }
    return Some(nearest);
  }
}
