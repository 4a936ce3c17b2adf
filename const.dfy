/** The constants of const.py: the coordinator's refresh interval and the
    ordered table from INMET summary phrases to Home Assistant conditions.
    The table is a sequence of pairs because its order matters: the
    condition lookup scans it from the first entry to the last. */
module Const {
  import opened Common

  /** Seconds between two coordinator refreshes (30 minutes). */
  const UPDATE_INTERVAL: int := 1800

  /** `CONDITION_MAP`, in its declaration order. */
  const CONDITION_MAP: seq<(string, string)> := [
    ("poucas nuvens", "partlycloudy"),
    ("muitas nuvens", "cloudy"),
    ("nublado", "cloudy"),
    ("encoberto", "cloudy"),
    ("chuva", "rainy"),
    ("pancadas de chuva", "pouring"),
    ("pancada de chuva", "pouring"),
    ("trovoada", "lightning-rainy"),
    ("tempestade", "lightning-rainy"),
    ("neve", "snowy"),
    ("limpo", "sunny"),
    ("ensolarado", "sunny"),
    ("sol", "sunny"),
    ("céu claro", "sunny"),
    ("ceu claro", "sunny"),
    ("neblina", "fog"),
    ("nevoeiro", "fog"),
    ("névoa", "fog"),
    ("nuvens", "partlycloudy"),
    ("parcialmente nublado", "partlycloudy")
  ]

  /** The weather condition strings Home Assistant accepts. */
  const HA_CONDITIONS: seq<string> := [
    "clear-night", "cloudy", "exceptional", "fog", "hail", "lightning", "lightning-rainy",
    "partlycloudy", "pouring", "rainy", "snowy", "snowy-rainy", "sunny", "windy", "windy-variant"
  ]

  /** `CONDITION_MAP.get(key)`: the value of the entry with that key. */
  function ConditionFor(key: string): (r: Option<string>)
    ensures r.Some? <==> exists i :: 0 <= i < |CONDITION_MAP| && CONDITION_MAP[i].0 == key
    ensures r.Some? ==> exists i :: 0 <= i < |CONDITION_MAP| && CONDITION_MAP[i] == (key, r.value)
  {
    LookupIn(CONDITION_MAP, key)
  }

  function LookupIn(table: seq<(string, string)>, key: string): (r: Option<string>)
    ensures r.Some? <==> exists i :: 0 <= i < |table| && table[i].0 == key
    ensures r.Some? ==> exists i :: 0 <= i < |table| && table[i] == (key, r.value)
  {
    if table == [] then None
    else if table[0].0 == key then Some(table[0].1)
    else
      var r := LookupIn(table[1..], key);
      assert forall i :: 1 <= i < |table| ==> table[i] == table[1..][i - 1];
      r
  }

  /** Every key is already lower case, accented ones included, so a key
      can match the lowered summary. */
  lemma KeysAreLowercase()
    ensures forall i :: 0 <= i < |CONDITION_MAP| ==> IsLowercase(CONDITION_MAP[i].0)
    ensures forall i :: 0 <= i < |CONDITION_MAP| ==> Lower(CONDITION_MAP[i].0) == CONDITION_MAP[i].0
  {
    CloudKeysAreLowercase();
    PrecipitationKeysAreLowercase();
    SunKeysAreLowercase();
    FogKeysAreLowercase();
    forall i | 0 <= i < |CONDITION_MAP|
      ensures Lower(CONDITION_MAP[i].0) == CONDITION_MAP[i].0
    {
      LowerProperties(CONDITION_MAP[i].0);
    }
  }

  lemma CloudKeysAreLowercase()
    ensures forall i :: 0 <= i < 4 ==> IsLowercase(CONDITION_MAP[i].0)
  {
  }

  lemma PrecipitationKeysAreLowercase()
    ensures forall i :: 4 <= i < 10 ==> IsLowercase(CONDITION_MAP[i].0)
  {
  }

  lemma SunKeysAreLowercase()
    ensures forall i :: 10 <= i < 15 ==> IsLowercase(CONDITION_MAP[i].0)
  {
  }

  lemma FogKeysAreLowercase()
    ensures forall i :: 15 <= i < 20 ==> IsLowercase(CONDITION_MAP[i].0)
  {
  }

  /** Every value is a Home Assistant condition. */
  lemma ValuesAreConditions()
    ensures forall i :: 0 <= i < |CONDITION_MAP| ==> CONDITION_MAP[i].1 in HA_CONDITIONS
  {
  }

  /** Twenty entries with pairwise distinct, non-empty keys: the literal
      dict loses nothing to a duplicate key. */
  lemma KeysAreDistinct()
    ensures |CONDITION_MAP| == 20
    ensures forall i, j :: 0 <= i < j < |CONDITION_MAP| ==> CONDITION_MAP[i].0 != CONDITION_MAP[j].0
    ensures forall i :: 0 <= i < |CONDITION_MAP| ==> CONDITION_MAP[i].0 != ""
  {
  }

  /** With distinct keys, looking up an entry's key gives that entry's value. */
  lemma LookupDistinct(table: seq<(string, string)>, i: int)
    requires forall a, b :: 0 <= a < b < |table| ==> table[a].0 != table[b].0
    requires 0 <= i < |table|
    ensures LookupIn(table, table[i].0) == Some(table[i].1)
  {
    var r := LookupIn(table, table[i].0);
    var j :| 0 <= j < |table| && table[j] == (table[i].0, r.value);
    assert j == i;
  }

  /** Every entry is found by its own key: no earlier entry shadows it in
      the dict. */
  lemma EntriesFoundByKey()
    ensures forall i :: 0 <= i < |CONDITION_MAP| ==> ConditionFor(CONDITION_MAP[i].0) == Some(CONDITION_MAP[i].1)
  {
    KeysAreDistinct();
    forall i | 0 <= i < |CONDITION_MAP|
      ensures ConditionFor(CONDITION_MAP[i].0) == Some(CONDITION_MAP[i].1)
    {
      LookupDistinct(CONDITION_MAP, i);
    }
  }

  /** The refresh interval is half an hour. */
  lemma UpdateIntervalIsHalfHour()
    ensures UPDATE_INTERVAL == 30 * 60
  {
  }
}
