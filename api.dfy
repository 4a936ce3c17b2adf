/** The INMET API client of api.py: a geocode resolver with an untimed
    geocode cache, a station cache with a two-hour lifetime, and three
    "last successful" maps that answer when a live request fails.

    Each network reply is an input (`Reply(status, body)`, or `Failed` for
    any exception: timeout, connection error, undecodable body), the clock
    `time.time()` is the parameter `now`, and the requests the client sends
    through its session are recorded in the field `requests`. */
module InmetApi {
  import opened Common
  import opened JsonValue
  import opened Nearest

  /** Lifetime of a station-cache entry, in seconds (two hours). */
  const STATION_CACHE_MAX_AGE: int := 7200

  // ---------------------------------------------------------------------
  // Cache keys: f"{round(latitude, 2)},{round(longitude, 2)}"

  /** Python's `round(v)` on an exact real: the nearest integer, ties to even. */
  function RoundHalfEven(v: real): (r: int)
    ensures r as real - 0.5 <= v <= r as real + 0.5
    ensures v == r as real - 0.5 || v == r as real + 0.5 ==> r % 2 == 0
  {
    var f := v.Floor;
    var frac := v - f as real;
    if frac < 0.5 then f
    else if frac > 0.5 then f + 1
    else if f % 2 == 0 then f else f + 1
  }

  /** The integer within one half of `v` is the rounding of `v`. */
  lemma RoundHalfEvenUnique(v: real, k: int)
    requires k as real - 0.5 < v < k as real + 0.5
    ensures RoundHalfEven(v) == k
  {
  }

  /** `round(x, 2)` as the formatted key sees it: the number of hundredths,
      and whether the result is the float -0.0 (printed "-0.0"), which is
      what a negative coordinate that rounds to zero gives. */
  datatype Rounded = Rounded(hundredths: int, negativeZero: bool)

  function Round2(x: real): (r: Rounded)
    ensures r.hundredths as real - 0.5 <= x * 100.0 <= r.hundredths as real + 0.5
    ensures r.negativeZero <==> r.hundredths == 0 && x < 0.0
  {
    var h := RoundHalfEven(x * 100.0);
    Rounded(h, h == 0 && x < 0.0)
  }

  /** The key string "lat,lon"; formatting two rounded floats is injective,
      so the key is the pair of rounded values. */
  datatype CacheKey = CacheKey(latitude: Rounded, longitude: Rounded)

  /** `_get_cache_key`. */
  function GetCacheKey(latitude: real, longitude: real): CacheKey
  {
    CacheKey(Round2(latitude), Round2(longitude))
  }

  /** Two queries share a cache slot exactly when both coordinates round to
      the same hundredths with the same sign of zero. */
  lemma CacheKeySharedIffRoundedAlike(lat1: real, lon1: real, lat2: real, lon2: real)
    ensures GetCacheKey(lat1, lon1) == GetCacheKey(lat2, lon2) <==>
              Round2(lat1) == Round2(lat2) && Round2(lon1) == Round2(lon2)
  {
  }

  /** Queries strictly inside the same 0.01-degree cell around a nonzero
      multiple of 0.01 share one slot. */
  lemma NearbyQueriesShareKey(lat1: real, lon1: real, lat2: real, lon2: real, a: int, b: int)
    requires a != 0 && b != 0
    requires a as real - 0.5 < lat1 * 100.0 < a as real + 0.5
    requires a as real - 0.5 < lat2 * 100.0 < a as real + 0.5
    requires b as real - 0.5 < lon1 * 100.0 < b as real + 0.5
    requires b as real - 0.5 < lon2 * 100.0 < b as real + 0.5
    ensures GetCacheKey(lat1, lon1) == GetCacheKey(lat2, lon2)
  {
    RoundHalfEvenUnique(lat1 * 100.0, a);
    RoundHalfEvenUnique(lat2 * 100.0, a);
    RoundHalfEvenUnique(lon1 * 100.0, b);
    RoundHalfEvenUnique(lon2 * 100.0, b);
  }

  /** Latitudes more than 0.01 degrees apart never share a slot. */
  lemma DistantQueriesSeparate(lat1: real, lon1: real, lat2: real, lon2: real)
    requires lat1 - lat2 > 0.01 || lat2 - lat1 > 0.01
    ensures GetCacheKey(lat1, lon1) != GetCacheKey(lat2, lon2)
  {
  }

  /** Just below zero and just above zero round to the same hundredths but
      print differently ("-0.0" against "0.0"): two slots. */
  lemma SignedZeroSplitsSlot()
    ensures Round2(-0.001).hundredths == Round2(0.001).hundredths == 0
    ensures GetCacheKey(-0.001, -43.17) != GetCacheKey(0.001, -43.17)
  {
    RoundHalfEvenUnique(-0.1, 0);
    RoundHalfEvenUnique(0.1, 0);
  }

  // ---------------------------------------------------------------------
  // Cache entries and the TTL policy

  datatype GeocodeEntry = GeocodeEntry(geocode: string, timestamp: real, latitude: real, longitude: real)

  /** A station-cache entry; `timestamp` is None for an entry that lacks the key. */
  datatype StationEntry = StationEntry(data: Json, timestamp: Option<real>, latitude: real, longitude: real)

  /** `_is_cache_valid`: an entry with a timestamp younger than the limit. */
  function IsCacheValid(entry: StationEntry, maxAgeSeconds: int, now: real): (valid: bool)
    ensures valid ==> entry.timestamp.Some?
  {
    entry.timestamp.Some? && now - entry.timestamp.value < maxAgeSeconds as real
  }

  /** An entry stamped at `t` is trusted exactly before `t + maxAge`, and
      not at that instant: the comparison is strict. */
  lemma CacheValidUntilExpiry(data: Json, t: real, lat: real, lon: real, maxAge: int, now: real)
    ensures IsCacheValid(StationEntry(data, Some(t), lat, lon), maxAge, now) <==> now < t + maxAge as real
    ensures !IsCacheValid(StationEntry(data, Some(t), lat, lon), maxAge, t + maxAge as real)
    ensures !IsCacheValid(StationEntry(data, None, lat, lon), maxAge, now)
  {
  }

  /** Validity only ever ends: an entry valid at `later` was valid earlier. */
  lemma CacheValidityMonotone(entry: StationEntry, maxAge: int, earlier: real, later: real)
    requires earlier <= later
    requires IsCacheValid(entry, maxAge, later)
    ensures IsCacheValid(entry, maxAge, earlier)
  {
  }

  /** The "last successful" policy: what a failed request falls back to. */
  function LastKnown<K>(last: map<K, Json>, key: K): (r: Option<Json>)
    ensures r.Some? <==> key in last
    ensures r.Some? ==> r.value == last[key]
  {
    if key in last then Some(last[key]) else None
  }

  // ---------------------------------------------------------------------
  // Network replies and requests

  /** A reply that was received (its status and decoded body), or `Failed`:
      an exception inside the request, including an undecodable body. */
  datatype Reply = Reply(status: int, body: Json) | Failed

  predicate IsOk(reply: Reply)
  {
    reply.Reply? && reply.status == 200
  }

  /** The three endpoints: the area lookup POST, the station GET (which
      `get_current_weather` also uses) and the forecast GET. */
  datatype Request = AreaLookup | StationByArea(geocode: string) | ForecastByArea(geocode: string)

  // ---------------------------------------------------------------------
  // _find_nearest_from_api_data: scan of the area-lookup payload

  /** What one `geocode: location_data` record contributes to the scan: it
      is skipped, it raises (which aborts the scan), or it has a distance. */
  datatype Candidate = Skipped | Fails | Located(distance: Float)

  /** The checks and conversions of one record, in the source's order: a
      record is skipped unless it is a dict with a `centroide` holding both
      `lat` and `lon`; such a record has the distance to its converted
      centroid, and fails when a conversion or the distance raises. A
      `centroide` that is not a dict fails once both membership tests
      pass, since subscripting it raises. */
  function CandidateOf(record: Json, latitude: real, longitude: real,
                       dist: Distance, parseFloat: string -> Option<real>): (c: Candidate)
    ensures !record.JObj? ==> c == Skipped
    ensures record.JObj? && "centroide" !in Keys(record.fields) ==> c == Skipped
    ensures record.JObj? && "centroide" in Keys(record.fields) ==>
              var ce := Lookup(record.fields, "centroide").value;
              ce.JObj? && ("lat" !in Keys(ce.fields) || "lon" !in Keys(ce.fields)) ==> c == Skipped
    ensures record.JObj? && "centroide" in Keys(record.fields) ==>
              var ce := Lookup(record.fields, "centroide").value;
              ce.JObj? && "lat" in Keys(ce.fields) && "lon" in Keys(ce.fields) ==>
                var locLat := PyFloat(Lookup(ce.fields, "lat").value, parseFloat);
                var locLon := PyFloat(Lookup(ce.fields, "lon").value, parseFloat);
                if locLat.Value? && locLon.Value? && dist(latitude, longitude, locLat.value, locLon.value).Value?
                then c == Located(dist(latitude, longitude, locLat.value, locLon.value).value)
                else c == Fails
    ensures record.JObj? && "centroide" in Keys(record.fields) ==>
              var ce := Lookup(record.fields, "centroide").value;
              !ce.JObj? ==>
                c == (if PyIn("lat", ce) == Value(false) || (PyIn("lat", ce) == Value(true) && PyIn("lon", ce) == Value(false))
                      then Skipped else Fails)
  {
    if !record.JObj? || "centroide" !in Keys(record.fields) then Skipped
    else
      var centroide := Lookup(record.fields, "centroide").value;
      match PyIn("lat", centroide)
      case Raised => Fails
      case Value(hasLat) =>
        if !hasLat then Skipped
        else
          match PyIn("lon", centroide)
          case Raised => Fails
          case Value(hasLon) =>
            if !hasLon then Skipped
            else
              match (PySubscript(centroide, "lat"), PySubscript(centroide, "lon"))
              case (Value(jlat), Value(jlon)) =>
                (match (PyFloat(jlat, parseFloat), PyFloat(jlon, parseFloat))
                 case (Value(locLat), Value(locLon)) =>
                   (match dist(latitude, longitude, locLat, locLon)
                    case Value(d) => Located(d)
                    case Raised => Fails)
                 case _ => Fails)
              case _ => Fails
  }

  function Candidates(fields: seq<(string, Json)>, latitude: real, longitude: real,
                      dist: Distance, parseFloat: string -> Option<real>): (cs: seq<Candidate>)
    ensures |cs| == |fields|
    ensures forall i :: 0 <= i < |fields| ==> cs[i] == CandidateOf(fields[i].1, latitude, longitude, dist, parseFloat)
  {
    seq(|fields|, i requires 0 <= i < |fields| => CandidateOf(fields[i].1, latitude, longitude, dist, parseFloat))
  }

  /** A skipped record is, for the scan, a distance that never wins (NaN). */
  function ScanDistance(c: Candidate): Float
  {
    if c.Located? then c.distance else NaN
  }

  function ScanDistances(cs: seq<Candidate>): (ds: seq<Float>)
    ensures |ds| == |cs|
    ensures forall i :: 0 <= i < |cs| ==> ds[i] == ScanDistance(cs[i])
  {
    seq(|cs|, i requires 0 <= i < |cs| => ScanDistance(cs[i]))
  }

  predicate AnyFails(cs: seq<Candidate>)
  {
    exists i :: 0 <= i < |cs| && cs[i].Fails?
  }

  /** The first `i` records were scanned: none raised, and `ds` holds
      their scan distances. */
  predicate ScannedPrefix(cs: seq<Candidate>, ds: seq<Float>, i: int)
  {
    0 <= i <= |cs| && |ds| == i &&
    forall j :: 0 <= j < i ==> !cs[j].Fails? && ds[j] == ScanDistance(cs[j])
  }

  lemma ScannedStep(cs: seq<Candidate>, ds: seq<Float>, i: int)
    requires ScannedPrefix(cs, ds, i) && i < |cs| && !cs[i].Fails?
    ensures ScannedPrefix(cs, ds + [ScanDistance(cs[i])], i + 1)
  {
  }

  lemma FailingRecordFails(cs: seq<Candidate>, i: int)
    requires 0 <= i < |cs| && cs[i].Fails?
    ensures AnyFails(cs)
  {
  }

  lemma ScannedAll(cs: seq<Candidate>, ds: seq<Float>)
    requires ScannedPrefix(cs, ds, |cs|)
    ensures !AnyFails(cs) && ds == ScanDistances(cs)
  {
  }

  /** What `_find_nearest_from_api_data` returns. */
  function NearestFromApiData(data: Json, latitude: real, longitude: real,
                              dist: Distance, parseFloat: string -> Option<real>): Option<string>
  {
    if !data.JObj? then None
    else
      var cs := Candidates(data.fields, latitude, longitude, dist, parseFloat);
      if AnyFails(cs) then None
      else
        match Scan(ScanDistances(cs)).0
        case Some(i) => Some(data.fields[i].0)
        case None => None
  }

  /** The payload scan returns the key of the first record whose centroid is
      at the smallest finite distance; records that are not dicts, lack
      `centroide` or lack `lat`/`lon` are skipped; a payload that is not a
      dict, with no usable record, or with a record that raises gives None. */
  lemma NearestFromApiDataSpec(data: Json, latitude: real, longitude: real,
                               dist: Distance, parseFloat: string -> Option<real>)
    ensures !data.JObj? || data.fields == [] ==> NearestFromApiData(data, latitude, longitude, dist, parseFloat).None?
    ensures data.JObj? ==>
              var cs := Candidates(data.fields, latitude, longitude, dist, parseFloat);
              (AnyFails(cs) ==> NearestFromApiData(data, latitude, longitude, dist, parseFloat).None?)
              && (!AnyFails(cs) && !HasFinite(ScanDistances(cs)) ==>
                    NearestFromApiData(data, latitude, longitude, dist, parseFloat).None?)
              && (forall i :: !AnyFails(cs) && IsFirstMinimum(ScanDistances(cs), i) ==>
                    cs[i].Located? &&
                    NearestFromApiData(data, latitude, longitude, dist, parseFloat) == Some(data.fields[i].0))
  {
    if data.JObj? {
      var cs := Candidates(data.fields, latitude, longitude, dist, parseFloat);
      var ds := ScanDistances(cs);
      ScanFindsFirstMinimum(ds);
      forall i | !AnyFails(cs) && IsFirstMinimum(ds, i)
        ensures cs[i].Located?
        ensures NearestFromApiData(data, latitude, longitude, dist, parseFloat) == Some(data.fields[i].0)
      {
        FirstMinimumUnique(ds, i, Scan(ds).0.value);
      }
    }
  }

  // ---------------------------------------------------------------------
  // get_geocode_from_coordinates, as a transition on the geocode cache

  /** The result of one resolution: the geocode returned, the geocode cache
      afterwards, and whether the area lookup was requested. */
  datatype Resolution = Resolution(geocode: Option<string>, cache: map<CacheKey, GeocodeEntry>, lookedUp: bool)

  /** The geocode cache after `_load_cache`: the file's contents on the
      first call when the file exists (None: no file), otherwise unchanged. */
  function Loaded(cache: map<CacheKey, GeocodeEntry>, cacheLoaded: bool,
                  disk: Option<map<CacheKey, GeocodeEntry>>): map<CacheKey, GeocodeEntry>
  {
    if cacheLoaded || disk.None? then cache else disk.value
  }

  /** Resolution from an already loaded cache. */
  function ResolveGeocode(cache: map<CacheKey, GeocodeEntry>, latitude: real, longitude: real,
                          reply: Reply, now: real,
                          dist: Distance, parseFloat: string -> Option<real>): Resolution
  {
    var key := GetCacheKey(latitude, longitude);
    if key in cache then Resolution(Some(cache[key].geocode), cache, false)
    else if !IsOk(reply) then Resolution(None, cache, true)
    else
      match NearestFromApiData(reply.body, latitude, longitude, dist, parseFloat)
      case Some(g) =>
        if g != "" then Resolution(Some(g), cache[key := GeocodeEntry(g, now, latitude, longitude)], true)
        else Resolution(None, cache, true)
      case None => Resolution(None, cache, true)
  }

  /** A cached key answers from the cache with no request, however old the
      entry; otherwise the lookup is requested, a 200 reply with a found
      geocode writes exactly one entry {geocode, now, latitude, longitude}
      at the query's key and returns it, and every other outcome returns
      None and leaves the cache as it was. */
  lemma ResolveGeocodeSpec(cache: map<CacheKey, GeocodeEntry>, latitude: real, longitude: real,
                           reply: Reply, now: real,
                           dist: Distance, parseFloat: string -> Option<real>)
    ensures var o := ResolveGeocode(cache, latitude, longitude, reply, now, dist, parseFloat);
            var key := GetCacheKey(latitude, longitude);
            var found := if IsOk(reply) then NearestFromApiData(reply.body, latitude, longitude, dist, parseFloat) else None;
            && (key in cache ==> o == Resolution(Some(cache[key].geocode), cache, false))
            && (key !in cache ==> o.lookedUp)
            && (key !in cache && found.Some? && found.value != "" ==>
                  o.geocode == found && o.cache == cache[key := GeocodeEntry(found.value, now, latitude, longitude)])
            && (key !in cache && (found.None? || found.value == "") ==> o.geocode.None? && o.cache == cache)
  {
  }

  /** Cache idempotence, with no expiry: once a resolution has returned a
      geocode, resolving any query with the same key again, at any later
      time and whatever the network says, returns the same geocode with no
      request and no change. */
  lemma ResolveAgainIsCached(cache: map<CacheKey, GeocodeEntry>, lat1: real, lon1: real, reply1: Reply, now1: real,
                             lat2: real, lon2: real, reply2: Reply, now2: real,
                             dist: Distance, parseFloat: string -> Option<real>)
    requires GetCacheKey(lat1, lon1) == GetCacheKey(lat2, lon2)
    requires ResolveGeocode(cache, lat1, lon1, reply1, now1, dist, parseFloat).geocode.Some?
    ensures var o1 := ResolveGeocode(cache, lat1, lon1, reply1, now1, dist, parseFloat);
            var o2 := ResolveGeocode(o1.cache, lat2, lon2, reply2, now2, dist, parseFloat);
            o2 == Resolution(o1.geocode, o1.cache, false)
  {
  }

  // ---------------------------------------------------------------------
  // The client

  class InmetApiClient {
    /** `calculate_distance` and Python's `float()` on strings. */
    const dist: Distance
    const parseFloat: string -> Option<real>

    var geocodeCache: map<CacheKey, GeocodeEntry>
    var cacheLoaded: bool
    var stationCache: map<CacheKey, StationEntry>
    var lastSuccessfulCurrentWeather: map<string, Json>
    var lastSuccessfulForecast: map<string, Json>
    var lastSuccessfulStation: map<CacheKey, Json>
    /** Requests sent through the session, oldest first. */
    var requests: seq<Request>

    /** Every fresh station entry also stands as the last successful one. */
    ghost predicate Valid()
      reads this
    {
      forall k :: k in stationCache ==> k in lastSuccessfulStation && lastSuccessfulStation[k] == stationCache[k].data
    }

    constructor (dist: Distance, parseFloat: string -> Option<real>)
      ensures Valid()
      ensures this.dist == dist && this.parseFloat == parseFloat
      ensures geocodeCache == map[] && !cacheLoaded && stationCache == map[]
      ensures lastSuccessfulCurrentWeather == map[] && lastSuccessfulForecast == map[]
      ensures lastSuccessfulStation == map[] && requests == []
    {
      this.dist := dist;
      this.parseFloat := parseFloat;
      geocodeCache := map[];
      cacheLoaded := false;
      stationCache := map[];
      lastSuccessfulCurrentWeather := map[];
      lastSuccessfulForecast := map[];
      lastSuccessfulStation := map[];
      requests := [];
    }

    /** `_load_cache`: on first use, the file's contents replace the cache. */
    method LoadCache(disk: Option<map<CacheKey, GeocodeEntry>>)
      modifies this`geocodeCache, this`cacheLoaded
      ensures cacheLoaded
      ensures geocodeCache == Loaded(old(geocodeCache), old(cacheLoaded), disk)
    {
      if cacheLoaded {
        return;
      }
      if disk.Some? {
        geocodeCache := disk.value;
      }
      cacheLoaded := true;
    }

    /** `_find_nearest_from_api_data`. */
    method FindNearestFromApiData(data: Json, latitude: real, longitude: real) returns (r: Option<string>)
      ensures r == NearestFromApiData(data, latitude, longitude, dist, parseFloat)
    {
      if !data.JObj? {
        return None;
      }
      var fields := data.fields;
      ghost var cs := Candidates(fields, latitude, longitude, dist, parseFloat);
      ghost var ds: seq<Float> := [];
      var minDistance: Float := PosInf;
      var closest: Option<string> := None;
      var i := 0;
      while i < |fields|
        invariant 0 <= i <= |fields|
        invariant ScannedPrefix(cs, ds, i)
        invariant Scan(ds).1 == minDistance
        invariant closest == (match Scan(ds).0 case None => None case Some(k) => Some(fields[k].0))
      {
        var candidate := CandidateOf(fields[i].1, latitude, longitude, dist, parseFloat);
        if candidate.Fails? {
          FailingRecordFails(cs, i);
          return None;
        }
        ScannedStep(cs, ds, i);
        ds := ds + [ScanDistance(candidate)];
        if candidate.Located? && FloatLess(candidate.distance, minDistance) {
          minDistance := candidate.distance;
          closest := Some(fields[i].0);
        }
        i := i + 1;
      }
      ScannedAll(cs, ds);
      return closest;
    }

    /** `get_geocode_from_coordinates` (cache and response logic). */
    method GetGeocodeFromCoordinates(latitude: real, longitude: real,
                                     disk: Option<map<CacheKey, GeocodeEntry>>, reply: Reply, now: real)
      returns (r: Option<string>)
      requires Valid()
      modifies this
      ensures Valid() && cacheLoaded
      ensures var o := ResolveGeocode(Loaded(old(geocodeCache), old(cacheLoaded), disk),
                                      latitude, longitude, reply, now, dist, parseFloat);
              r == o.geocode && geocodeCache == o.cache &&
              requests == old(requests) + (if o.lookedUp then [AreaLookup] else [])
      ensures stationCache == old(stationCache) && lastSuccessfulStation == old(lastSuccessfulStation)
      ensures lastSuccessfulCurrentWeather == old(lastSuccessfulCurrentWeather)
      ensures lastSuccessfulForecast == old(lastSuccessfulForecast)
    {
      LoadCache(disk);
      var key := GetCacheKey(latitude, longitude);
      if key in geocodeCache {
        return Some(geocodeCache[key].geocode);
      }
      requests := requests + [AreaLookup];
      if reply.Failed? || reply.status != 200 {
        return None;
      }
      var geocode := FindNearestFromApiData(reply.body, latitude, longitude);
      if geocode.Some? && geocode.value != "" {
        geocodeCache := geocodeCache[key := GeocodeEntry(geocode.value, now, latitude, longitude)];
        return geocode;
      }
      return None;
    }

    /** `get_nearest_station`. */
    method GetNearestStation(latitude: real, longitude: real,
                             disk: Option<map<CacheKey, GeocodeEntry>>, areaReply: Reply, stationReply: Reply,
                             now: real)
      returns (r: Option<Json>)
      requires Valid()
      modifies this
      ensures Valid()
      ensures lastSuccessfulCurrentWeather == old(lastSuccessfulCurrentWeather)
      ensures lastSuccessfulForecast == old(lastSuccessfulForecast)
      ensures var key := GetCacheKey(latitude, longitude);
              if key in old(stationCache) && IsCacheValid(old(stationCache)[key], STATION_CACHE_MAX_AGE, now) then
                && r == Some(old(stationCache)[key].data)
                && geocodeCache == old(geocodeCache) && cacheLoaded == old(cacheLoaded)
                && stationCache == old(stationCache) && lastSuccessfulStation == old(lastSuccessfulStation)
                && requests == old(requests)
              else
                var o := ResolveGeocode(Loaded(old(geocodeCache), old(cacheLoaded), disk),
                                        latitude, longitude, areaReply, now, dist, parseFloat);
                var asked := old(requests) + (if o.lookedUp then [AreaLookup] else []);
                && geocodeCache == o.cache && cacheLoaded
                && if o.geocode.None? || o.geocode.value == "" then
                     && r == LastKnown(old(lastSuccessfulStation), key)
                     && stationCache == old(stationCache) && lastSuccessfulStation == old(lastSuccessfulStation)
                     && requests == asked
                   else
                     && requests == asked + [StationByArea(o.geocode.value)]
                     && if IsOk(stationReply) then
                          && r == Some(stationReply.body)
                          && stationCache == old(stationCache)[key := StationEntry(stationReply.body, Some(now), latitude, longitude)]
                          && lastSuccessfulStation == old(lastSuccessfulStation)[key := stationReply.body]
                        else
                          && r == LastKnown(old(lastSuccessfulStation), key)
                          && stationCache == old(stationCache) && lastSuccessfulStation == old(lastSuccessfulStation)
    {
      var key := GetCacheKey(latitude, longitude);
      if key in stationCache {
        var entry := stationCache[key];
        if IsCacheValid(entry, STATION_CACHE_MAX_AGE, now) {
          return Some(entry.data);
        }
      }
      var geocode := GetGeocodeFromCoordinates(latitude, longitude, disk, areaReply, now);
      if geocode.None? || geocode.value == "" {
        return LastKnown(lastSuccessfulStation, key);
      }
      requests := requests + [StationByArea(geocode.value)];
      if stationReply.Failed? || stationReply.status != 200 {
        return LastKnown(lastSuccessfulStation, key);
      }
      var stationData := stationReply.body;
      stationCache := stationCache[key := StationEntry(stationData, Some(now), latitude, longitude)];
      lastSuccessfulStation := lastSuccessfulStation[key := stationData];
      return Some(stationData);
    }

    /** `get_current_weather`: a 200 reply becomes the last successful
      payload for `geocode`; any failure falls back to it. */
    method GetCurrentWeather(geocode: string, reply: Reply) returns (r: Option<Json>)
      modifies this`lastSuccessfulCurrentWeather, this`requests
      ensures requests == old(requests) + [StationByArea(geocode)]
      ensures IsOk(reply) ==>
                r == Some(reply.body) &&
                lastSuccessfulCurrentWeather == old(lastSuccessfulCurrentWeather)[geocode := reply.body]
      ensures !IsOk(reply) ==>
                r == LastKnown(old(lastSuccessfulCurrentWeather), geocode) &&
                lastSuccessfulCurrentWeather == old(lastSuccessfulCurrentWeather)
    {
      requests := requests + [StationByArea(geocode)];
      if reply.Failed? || reply.status != 200 {
        return LastKnown(lastSuccessfulCurrentWeather, geocode);
      }
      var data := reply.body;
      lastSuccessfulCurrentWeather := lastSuccessfulCurrentWeather[geocode := data];
      return Some(data);
    }

    /** `get_forecast`: the same policy over the forecast endpoint. */
    method GetForecast(geocode: string, reply: Reply) returns (r: Option<Json>)
      modifies this`lastSuccessfulForecast, this`requests
      ensures requests == old(requests) + [ForecastByArea(geocode)]
      ensures IsOk(reply) ==>
                r == Some(reply.body) &&
                lastSuccessfulForecast == old(lastSuccessfulForecast)[geocode := reply.body]
      ensures !IsOk(reply) ==>
                r == LastKnown(old(lastSuccessfulForecast), geocode) &&
                lastSuccessfulForecast == old(lastSuccessfulForecast)
    {
      requests := requests + [ForecastByArea(geocode)];
      if reply.Failed? || reply.status != 200 {
        return LastKnown(lastSuccessfulForecast, geocode);
      }
      var data := reply.body;
      lastSuccessfulForecast := lastSuccessfulForecast[geocode := data];
      return Some(data);
    }
  }

  // ---------------------------------------------------------------------
  // Client sessions: what a caller observes over several calls

  /** The area lookup finds a usable geocode in `areaReply`. */
  predicate LookupFinds(areaReply: Reply, latitude: real, longitude: real,
                        dist: Distance, parseFloat: string -> Option<real>)
  {
    && IsOk(areaReply)
    && var g := NearestFromApiData(areaReply.body, latitude, longitude, dist, parseFloat);
       g.Some? && g.value != ""
  }

  /** Two station queries for the same place within two hours: the second
      is answered from the station cache, whatever the network would say,
      and sends nothing (one lookup and one station request in all). */
  method StationServedFromCacheWithinTtl(latitude: real, longitude: real, areaReply: Reply, stationData: Json,
                                         now1: real, now2: real, areaReply2: Reply, stationReply2: Reply,
                                         dist: Distance, parseFloat: string -> Option<real>)
    returns (r1: Option<Json>, r2: Option<Json>, sent: nat)
    requires LookupFinds(areaReply, latitude, longitude, dist, parseFloat)
    requires now2 - now1 < STATION_CACHE_MAX_AGE as real
    ensures r1 == Some(stationData) && r2 == r1
    ensures sent == 2
  {
    var client := new InmetApiClient(dist, parseFloat);
    r1 := client.GetNearestStation(latitude, longitude, None, areaReply, Reply(200, stationData), now1);
    r2 := client.GetNearestStation(latitude, longitude, None, areaReply2, stationReply2, now2);
    sent := |client.requests|;
  }

  /** Once the station entry is two hours old, the next query fetches the
      station again (the geocode itself stays cached: no second lookup);
      if that fetch fails, the last successful station data is returned. */
  method StationRefetchedAfterTtl(latitude: real, longitude: real, areaReply: Reply, stationData: Json,
                                  now1: real, now2: real, areaReply2: Reply, stationReply2: Reply,
                                  dist: Distance, parseFloat: string -> Option<real>)
    returns (r1: Option<Json>, r2: Option<Json>, sent: nat)
    requires LookupFinds(areaReply, latitude, longitude, dist, parseFloat)
    requires now2 - now1 >= STATION_CACHE_MAX_AGE as real
    ensures r1 == Some(stationData)
    ensures sent == 3
    ensures IsOk(stationReply2) ==> r2 == Some(stationReply2.body)
    ensures !IsOk(stationReply2) ==> r2 == Some(stationData)
  {
    var client := new InmetApiClient(dist, parseFloat);
    r1 := client.GetNearestStation(latitude, longitude, None, areaReply, Reply(200, stationData), now1);
    r2 := client.GetNearestStation(latitude, longitude, None, areaReply2, stationReply2, now2);
    sent := |client.requests|;
  }

  /** Without a geocode, a station query returns None and caches nothing. */
  method StationWithoutGeocode(latitude: real, longitude: real, areaReply: Reply, stationReply: Reply, now: real,
                               dist: Distance, parseFloat: string -> Option<real>)
    returns (r: Option<Json>, sent: nat)
    requires !LookupFinds(areaReply, latitude, longitude, dist, parseFloat)
    ensures r.None? && sent == 1
  {
    var client := new InmetApiClient(dist, parseFloat);
    r := client.GetNearestStation(latitude, longitude, None, areaReply, stationReply, now);
    sent := |client.requests|;
  }

  /** A geocode, once found, is served from the cache at any later time:
      the geocode cache has no expiry check. */
  method GeocodeCachedWithoutExpiry(latitude: real, longitude: real, areaReply: Reply, now1: real,
                                    areaReply2: Reply, now2: real,
                                    dist: Distance, parseFloat: string -> Option<real>)
    returns (r1: Option<string>, r2: Option<string>, sent: nat)
    requires LookupFinds(areaReply, latitude, longitude, dist, parseFloat)
    ensures r1 == NearestFromApiData(areaReply.body, latitude, longitude, dist, parseFloat)
    ensures r2 == r1 && sent == 1
  {
    var client := new InmetApiClient(dist, parseFloat);
    r1 := client.GetGeocodeFromCoordinates(latitude, longitude, None, areaReply, now1);
    r2 := client.GetGeocodeFromCoordinates(latitude, longitude, None, areaReply2, now2);
    sent := |client.requests|;
  }

  /** After a success for `geocode`, a failed current-weather or forecast
      request returns exactly the earlier payload; a geocode that never
      succeeded gets None, and each map answers only for its own endpoint. */
  method FetchFallsBackToLastSuccess(geocode: string, other: string, current: Json, forecast: Json, failure: Reply)
    returns (c1: Option<Json>, c2: Option<Json>, f1: Option<Json>, f2: Option<Json>,
             cOther: Option<Json>, fOther: Option<Json>)
    requires !IsOk(failure) && other != geocode
    ensures c1 == Some(current) && c2 == Some(current)
    ensures f1 == Some(forecast) && f2 == Some(forecast)
    ensures cOther.None? && fOther.None?
  {
    var client := new InmetApiClient((a, b, c, d) => Raised, s => None);
    c1 := client.GetCurrentWeather(geocode, Reply(200, current));
    f1 := client.GetForecast(geocode, Reply(200, forecast));
    c2 := client.GetCurrentWeather(geocode, failure);
    f2 := client.GetForecast(geocode, failure);
    cOther := client.GetCurrentWeather(other, failure);
    fOther := client.GetForecast(other, failure);
  }
}
