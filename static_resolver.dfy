/** The inline resolver of test_api_direct.py: the superseded variant of
    `get_geocode_from_coordinates` that scans a fixed table of three known
    cities for the nearest one, with no network and no cache. */
module StaticResolver {
  import opened Common
  import opened Nearest

  datatype KnownLocation = KnownLocation(geocode: string, latitude: real, longitude: real, name: string)

  const KNOWN_LOCATIONS: seq<KnownLocation> := [
    KnownLocation("3304557", -22.9068, -43.1729, "Rio de Janeiro"),
    KnownLocation("3550308", -23.5505, -46.6333, "São Paulo"),
    KnownLocation("5300108", -15.7939, -47.8828, "Brasília")
  ]

  /** Returned when no table entry gets a distance below +inf. */
  const DEFAULT_GEOCODE: string := "3304557"

  predicate DistanceRaises(latitude: real, longitude: real, dist: Distance)
  {
    exists i | 0 <= i < |KNOWN_LOCATIONS| ::
      dist(latitude, longitude, KNOWN_LOCATIONS[i].latitude, KNOWN_LOCATIONS[i].longitude).Raised?
  }

  /** The distance from the query to each table entry, in table order. */
  function Distances(latitude: real, longitude: real, dist: Distance): (ds: seq<Float>)
    requires !DistanceRaises(latitude, longitude, dist)
    ensures |ds| == |KNOWN_LOCATIONS|
    ensures forall i :: 0 <= i < |ds| ==>
              Value(ds[i]) == dist(latitude, longitude, KNOWN_LOCATIONS[i].latitude, KNOWN_LOCATIONS[i].longitude)
  {
    seq(|KNOWN_LOCATIONS|, i requires 0 <= i < |KNOWN_LOCATIONS| =>
      dist(latitude, longitude, KNOWN_LOCATIONS[i].latitude, KNOWN_LOCATIONS[i].longitude).value)
  }

  /** What the resolver returns: None when a distance raises, else the
      scan's winner when it has a (truthy) geocode, else the default. */
  function StaticGeocode(latitude: real, longitude: real, dist: Distance): Option<string>
  {
    if DistanceRaises(latitude, longitude, dist) then None
    else
      match Scan(Distances(latitude, longitude, dist)).0
      case Some(i) =>
        if KNOWN_LOCATIONS[i].geocode != "" then Some(KNOWN_LOCATIONS[i].geocode) else Some(DEFAULT_GEOCODE)
      case None => Some(DEFAULT_GEOCODE)
  }

  /** `get_geocode_from_coordinates` of test_api_direct.py. */
  method GetGeocodeFromCoordinates(latitude: real, longitude: real, dist: Distance)
    returns (r: Option<string>)
    ensures r == StaticGeocode(latitude, longitude, dist)
  {
    var minDistance: Float := PosInf;
    var closest: Option<string> := None;
    ghost var ds: seq<Float> := [];
    var i := 0;
    while i < |KNOWN_LOCATIONS|
      invariant 0 <= i <= |KNOWN_LOCATIONS|
      invariant |ds| == i
      invariant forall j :: 0 <= j < i ==>
                  dist(latitude, longitude, KNOWN_LOCATIONS[j].latitude, KNOWN_LOCATIONS[j].longitude) == Value(ds[j])
      invariant Scan(ds).1 == minDistance
      invariant closest == (match Scan(ds).0 case None => None case Some(k) => Some(KNOWN_LOCATIONS[k].geocode))
    {
      var location := KNOWN_LOCATIONS[i];
      var d := dist(latitude, longitude, location.latitude, location.longitude);
      if d.Raised? {
        return None;
      }
      ghost var before := ds;
      ds := ds + [d.value];
      assert ds[..i] == before;
      if FloatLess(d.value, minDistance) {
        minDistance := d.value;
        closest := Some(location.geocode);
      }
      i := i + 1;
    }
    assert ds == Distances(latitude, longitude, dist);
    if closest.Some? && closest.value != "" {
      return closest;
    }
    return Some(DEFAULT_GEOCODE);
  }

  /** The resolver's answer: None exactly when a distance raises; otherwise
      the geocode of the first table entry with the smallest finite
      distance, or the default when no distance is finite. */
  lemma StaticGeocodeSpec(latitude: real, longitude: real, dist: Distance)
    ensures StaticGeocode(latitude, longitude, dist).None? <==> DistanceRaises(latitude, longitude, dist)
    ensures !DistanceRaises(latitude, longitude, dist) ==>
              var ds := Distances(latitude, longitude, dist);
              (!HasFinite(ds) ==> StaticGeocode(latitude, longitude, dist) == Some(DEFAULT_GEOCODE))
              && (forall i :: IsFirstMinimum(ds, i) ==>
                    StaticGeocode(latitude, longitude, dist) == Some(KNOWN_LOCATIONS[i].geocode))
  {
    if !DistanceRaises(latitude, longitude, dist) {
      var ds := Distances(latitude, longitude, dist);
      ScanFindsFirstMinimum(ds);
      forall i | IsFirstMinimum(ds, i)
        ensures StaticGeocode(latitude, longitude, dist) == Some(KNOWN_LOCATIONS[i].geocode)
      {
        FirstMinimumUnique(ds, i, Scan(ds).0.value);
      }
    }
  }

  /** Every answer is one of the table's three geocodes (the default is
      Rio's), and when every distance is finite the default branch is never
      taken: the answer is the first minimum's geocode. */
  lemma StaticGeocodeIsKnown(latitude: real, longitude: real, dist: Distance)
    ensures StaticGeocode(latitude, longitude, dist).Some? ==>
              StaticGeocode(latitude, longitude, dist).value in ["3304557", "3550308", "5300108"]
    ensures !DistanceRaises(latitude, longitude, dist) &&
            (forall i :: 0 <= i < |KNOWN_LOCATIONS| ==> Distances(latitude, longitude, dist)[i].Finite?) ==>
              exists i :: IsFirstMinimum(Distances(latitude, longitude, dist), i) &&
                StaticGeocode(latitude, longitude, dist) == Some(KNOWN_LOCATIONS[i].geocode)
  {
    if !DistanceRaises(latitude, longitude, dist) {
      var ds := Distances(latitude, longitude, dist);
      ScanFindsFirstMinimum(ds);
      if forall i :: 0 <= i < |KNOWN_LOCATIONS| ==> ds[i].Finite? {
        assert ds[0].Finite?;
        assert HasFinite(ds);
      }
    }
  }

  /** A distance function that is zero from a known city to itself and
      positive between two different known cities. */
  predicate SeparatesKnownCities(dist: Distance)
  {
    forall c, j :: 0 <= c < |KNOWN_LOCATIONS| && 0 <= j < |KNOWN_LOCATIONS| ==>
      var d := dist(KNOWN_LOCATIONS[c].latitude, KNOWN_LOCATIONS[c].longitude,
                    KNOWN_LOCATIONS[j].latitude, KNOWN_LOCATIONS[j].longitude);
      d.Value? && d.value.Finite? && (if c == j then d.value.value == 0.0 else d.value.value > 0.0)
  }

  /** Querying exactly at a known city returns that city's geocode. */
  lemma ExactCityResolvesToItself(dist: Distance, c: nat)
    requires SeparatesKnownCities(dist)
    requires c < |KNOWN_LOCATIONS|
    ensures StaticGeocode(KNOWN_LOCATIONS[c].latitude, KNOWN_LOCATIONS[c].longitude, dist)
              == Some(KNOWN_LOCATIONS[c].geocode)
  {
    var lat, lon := KNOWN_LOCATIONS[c].latitude, KNOWN_LOCATIONS[c].longitude;
    assert !DistanceRaises(lat, lon, dist) by {
      forall i | 0 <= i < |KNOWN_LOCATIONS|
        ensures dist(lat, lon, KNOWN_LOCATIONS[i].latitude, KNOWN_LOCATIONS[i].longitude).Value?
      {
      }
    }
    var ds := Distances(lat, lon, dist);
    StrictMinimumIsFirst(ds, c);
    StaticGeocodeSpec(lat, lon, dist);
  }

  /** The three cases of test_api_direct.py: Rio, São Paulo and Brasília. */
  lemma KnownCitiesResolve(dist: Distance)
    requires SeparatesKnownCities(dist)
    ensures StaticGeocode(-22.9068, -43.1729, dist) == Some("3304557")
    ensures StaticGeocode(-23.5505, -46.6333, dist) == Some("3550308")
    ensures StaticGeocode(-15.7939, -47.8828, dist) == Some("5300108")
  {
    ExactCityResolvesToItself(dist, 0);
    ExactCityResolvesToItself(dist, 1);
    ExactCityResolvesToItself(dist, 2);
  }
}
