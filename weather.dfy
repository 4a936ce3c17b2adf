/** The data shaping of the weather entity in weather.py: the current
    period of the day, the condition lookup over the ordered table, one
    forecast item per period entry, the nested walk over the forecast
    payload with its truncation, and the safe reading of current values.

    The coordinator's data is a JSON value; `datetime.now()` comes in as
    the current hour and today's date string, `datetime.strptime(s,
    "%d/%m/%Y")` as a partial `parseDate`, and `float()` on strings as a
    partial `parseFloat`. An exception inside `_parse_forecast_data`'s
    `try` gives the empty list; elsewhere it is returned as `Raised`. */
module Weather {
  import opened Common
  import opened JsonValue
  import opened Const

  // ---------------------------------------------------------------------
  // Periods of the day

  /** `PERIOD_HOURS`: the hour each forecast period is stamped with. */
  const PERIOD_HOURS: map<string, int> := map["manha" := 6, "tarde" := 12, "noite" := 18]

  /** The periods the full and twice-daily forecasts ask for, in order. */
  const ALL_PERIODS: seq<string> := ["manha", "tarde", "noite"]

  /** `_get_current_period` for the current hour. */
  function CurrentPeriod(hour: int): (p: string)
    ensures p in PERIOD_HOURS
  {
    if hour < 12 then "manha"
    else if hour < 18 then "tarde"
    else "noite"
  }

  /** Morning before noon, afternoon from noon to before six, night after. */
  lemma CurrentPeriodRanges(hour: int)
    ensures CurrentPeriod(hour) == "manha" <==> hour < 12
    ensures CurrentPeriod(hour) == "tarde" <==> 12 <= hour < 18
    ensures CurrentPeriod(hour) == "noite" <==> 18 <= hour
  {
  }

  /** Each period's stamped hour falls in that period, and from 06:00 on
      the current period is the one whose stamped hour was passed last. */
  lemma CurrentPeriodMatchesPeriodHours(hour: int)
    ensures forall p :: p in PERIOD_HOURS ==> CurrentPeriod(PERIOD_HOURS[p]) == p
    ensures 6 <= hour ==>
              PERIOD_HOURS[CurrentPeriod(hour)] <= hour &&
              forall p :: p in PERIOD_HOURS && PERIOD_HOURS[p] <= hour ==> PERIOD_HOURS[p] <= PERIOD_HOURS[CurrentPeriod(hour)]
  {
    assert PERIOD_HOURS.Keys == {"manha", "tarde", "noite"};
  }

  /** `PERIOD_HOURS.get(period, 6) if period else 6`. */
  function HourFor(period: Option<string>): (h: int)
    ensures h in PERIOD_HOURS.Values
    ensures period.Some? && period.value in PERIOD_HOURS ==> h == PERIOD_HOURS[period.value]
    ensures period.None? || period.value !in PERIOD_HOURS ==> h == 6
  {
    assert PERIOD_HOURS["manha"] == 6;
    if period.Some? && period.value != "" && period.value in PERIOD_HOURS then PERIOD_HOURS[period.value] else 6
  }

  /** The hours the three period names are stamped with. */
  lemma PeriodNameHours()
    ensures HourFor(Some("manha")) == 6 && HourFor(Some("tarde")) == 12 && HourFor(Some("noite")) == 18
  {
    assert "manha" in PERIOD_HOURS && "tarde" in PERIOD_HOURS && "noite" in PERIOD_HOURS;
  }

  // ---------------------------------------------------------------------
  // Condition mapping: first table key that occurs in the summary

  /** Entry `i` is the first whose key occurs in `s`. */
  predicate IsFirstMatch(table: seq<(string, string)>, s: string, i: int)
  {
    0 <= i < |table| && IsSubstring(table[i].0, s) &&
    forall j :: 0 <= j < i ==> !IsSubstring(table[j].0, s)
  }

  /** The value of the first entry whose key occurs in `s`. */
  function FirstMatch(table: seq<(string, string)>, s: string): Option<string>
  {
    if table == [] then None
    else if IsSubstring(table[0].0, s) then Some(table[0].1)
    else FirstMatch(table[1..], s)
  }

  /** The lookup returns None exactly when no key occurs in `s`, and
      otherwise the value of the first entry whose key occurs. */
  lemma {:induction false} FirstMatchSpec(table: seq<(string, string)>, s: string)
    ensures FirstMatch(table, s).None? <==> forall i :: 0 <= i < |table| ==> !IsSubstring(table[i].0, s)
    ensures forall i :: IsFirstMatch(table, s, i) ==> FirstMatch(table, s) == Some(table[i].1)
    ensures FirstMatch(table, s).Some? ==>
              exists i :: IsFirstMatch(table, s, i) && FirstMatch(table, s) == Some(table[i].1)
  {
    if table != [] {
      var rest := table[1..];
      FirstMatchSpec(rest, s);
      assert forall i :: 1 <= i < |table| ==> table[i] == rest[i - 1];
      if !IsSubstring(table[0].0, s) {
        forall i | IsFirstMatch(table, s, i)
          ensures FirstMatch(table, s) == Some(table[i].1)
        {
          assert IsFirstMatch(rest, s, i - 1);
        }
        if FirstMatch(table, s).Some? {
          var i :| IsFirstMatch(rest, s, i) && FirstMatch(rest, s) == Some(rest[i].1);
          assert IsFirstMatch(table, s, i + 1);
        }
      } else {
        assert IsFirstMatch(table, s, 0);
      }
    }
  }

  /** `_map_condition`: lower-case the summary, then scan the table. */
  method MapCondition(resumo: string) returns (r: Option<string>)
    ensures r == FirstMatch(CONDITION_MAP, Lower(resumo))
  {
    var resumoLower := Lower(resumo);
    for i := 0 to |CONDITION_MAP|
      invariant FirstMatch(CONDITION_MAP, resumoLower) == FirstMatch(CONDITION_MAP[i..], resumoLower)
    {
      assert CONDITION_MAP[i..][1..] == CONDITION_MAP[i + 1..];
      var (key, value) := CONDITION_MAP[i];
      if IsSubstring(key, resumoLower) {
        return Some(value);
      }
    }
    return None;
  }

  /** An entry whose key contains an earlier entry's key is never the
      first match: whenever it occurs, the earlier one occurs too. */
  lemma ShadowedEntryNeverFirst(table: seq<(string, string)>, s: string, i: int, j: int)
    requires 0 <= j < i < |table|
    requires IsSubstring(table[j].0, table[i].0)
    ensures !IsFirstMatch(table, s, i)
  {
    if IsSubstring(table[i].0, s) {
      SubstringTransitive(table[j].0, table[i].0, s);
    }
  }

  /** A value whose every entry is shadowed by an earlier entry (one whose
      key occurs in its key) is never returned. */
  lemma ShadowedValueNeverReturned(table: seq<(string, string)>, s: string, v: string, shadow: seq<int>)
    requires |shadow| == |table|
    requires forall i :: 0 <= i < |table| && table[i].1 == v ==>
               0 <= shadow[i] < i && IsSubstring(table[shadow[i]].0, table[i].0)
    ensures FirstMatch(table, s) != Some(v)
  {
    FirstMatchSpec(table, s);
    forall i | 0 <= i < |table| && table[i].1 == v
      ensures !IsFirstMatch(table, s, i)
    {
      ShadowedEntryNeverFirst(table, s, i, shadow[i]);
    }
  }

  /** The first matching entry decides the lookup. */
  lemma FirstMatchAt(table: seq<(string, string)>, s: string, i: int)
    requires IsFirstMatch(table, s, i)
    ensures FirstMatch(table, s) == Some(table[i].1)
  {
    FirstMatchSpec(table, s);
  }

  /** A certificate for a first match: for each earlier key a character
      of it that `s` lacks, and the position where entry `i`'s key occurs. */
  lemma FirstMatchByWitnesses(table: seq<(string, string)>, s: string, i: int, absent: string, at: int)
    requires 0 <= i < |table| && |absent| == i
    requires forall j :: 0 <= j < i ==> absent[j] in table[j].0 && absent[j] !in s
    requires MatchAt(table[i].0, s, at)
    ensures FirstMatch(table, s) == Some(table[i].1)
  {
    forall j | 0 <= j < i
      ensures !IsSubstring(table[j].0, s)
    {
      NotSubstringByChar(table[j].0, s, absent[j]);
    }
    FirstMatchAt(table, s, i);
  }

  // ---------------------------------------------------------------------
  // Forecast items

  /** A calendar date as `strptime` yields it (time of day midnight). */
  datatype Date = Date(year: int, month: int, day: int)

  /** The forecast dict: its time (the date at `hour`:00:00), the values
      read from the period's data, and the two keys added only sometimes. */
  datatype ForecastItem = ForecastItem(
    date: Date,
    hour: int,
    nativeTemperature: Json,
    nativeTemplow: Json,
    windBearing: Json,
    condition: Option<string>,
    humidity: Option<Json>)

  /** The summary `data.get("resumo", "")` yields a condition without
      raising: it is falsy or a string. */
  predicate ResumoReadable(data: Json)
    requires data.JObj?
  {
    var resumo := PyGet(data, "resumo", JStr("")).value;
    !Truthy(resumo) || resumo.JStr?
  }

  /** `_generate_forecast_item`: None for falsy data; otherwise an item (or
      an exception, when the data is not a dict or its summary is not a
      string). */
  function ItemOf(date: Date, data: Json, period: Option<string>): (r: Outcome<Option<ForecastItem>>)
    ensures !Truthy(data) ==> r == Value(None)
    ensures r.Raised? <==> Truthy(data) && (!data.JObj? || !ResumoReadable(data))
    ensures r.Value? && r.value.Some? ==>
              var item := r.value.value;
              && item.date == date && item.hour == HourFor(period)
              && item.nativeTemperature == PyGet(data, "temp_max", JNull).value
              && item.nativeTemplow == PyGet(data, "temp_min", JNull).value
              && item.windBearing == PyGet(data, "dir-vento", JNull).value
              && (item.humidity.Some? <==> "umidade_max" in Keys(data.fields))
              && (item.humidity.Some? ==> Lookup(data.fields, "umidade_max") == item.humidity)
              && (item.condition.Some? <==>
                    Truthy(PyGet(data, "resumo", JStr("")).value) &&
                    FirstMatch(CONDITION_MAP, Lower(PyGet(data, "resumo", JStr("")).value.s)).Some?)
  {
    if !Truthy(data) then Value(None)
    else if !data.JObj? then Raised
    else
      var resumo := PyGet(data, "resumo", JStr("")).value;
      if Truthy(resumo) && !resumo.JStr? then Raised
      else
        var condition := if Truthy(resumo) then FirstMatch(CONDITION_MAP, Lower(resumo.s)) else None;
        MatchedConditionNonEmpty(if Truthy(resumo) then Lower(resumo.s) else "");
        Value(Some(ForecastItem(
          date, HourFor(period),
          PyGet(data, "temp_max", JNull).value,
          PyGet(data, "temp_min", JNull).value,
          PyGet(data, "dir-vento", JNull).value,
          if condition.Some? && condition.value != "" then condition else None,
          Lookup(data.fields, "umidade_max"))))
  }

  /** A mapped condition is a table value, never empty, so the item's
      `if condition:` keeps every match. */
  lemma MatchedConditionNonEmpty(s: string)
    ensures FirstMatch(CONDITION_MAP, s).Some? ==> FirstMatch(CONDITION_MAP, s).value != ""
  {
    assert forall i :: 0 <= i < |CONDITION_MAP| ==> CONDITION_MAP[i].1 != "";
    FirstMatchIsTableValue(CONDITION_MAP, s);
  }

  /** The lookup only ever returns the value of some entry. */
  lemma {:induction false} FirstMatchIsTableValue(table: seq<(string, string)>, s: string)
    ensures FirstMatch(table, s).Some? ==>
              exists i :: 0 <= i < |table| && table[i].1 == FirstMatch(table, s).value
  {
    if table != [] && !IsSubstring(table[0].0, s) {
      FirstMatchIsTableValue(table[1..], s);
      if FirstMatch(table, s).Some? {
        var i :| 0 <= i < |table[1..]| && table[1..][i].1 == FirstMatch(table, s).value;
        assert table[i + 1].1 == FirstMatch(table, s).value;
      }
    } else if table != [] {
      assert table[0].1 == FirstMatch(table, s).value;
    }
  }

  /** `_generate_forecast_item`, inserting the optional keys one by one. */
  method GenerateForecastItem(date: Date, data: Json, period: Option<string>)
    returns (r: Outcome<Option<ForecastItem>>)
    ensures r == ItemOf(date, data, period)
  {
    if !Truthy(data) {
      return Value(None);
    }
    if !data.JObj? {
      return Raised;
    }
    var hour := if period.Some? && period.value != "" && period.value in PERIOD_HOURS then PERIOD_HOURS[period.value] else 6;
    var item := ForecastItem(date, hour,
                             PyGet(data, "temp_max", JNull).value,
                             PyGet(data, "temp_min", JNull).value,
                             PyGet(data, "dir-vento", JNull).value,
                             None, None);
    var resumo := PyGet(data, "resumo", JStr("")).value;
    if Truthy(resumo) {
      if !resumo.JStr? {
        return Raised;
      }
      var condition := MapCondition(resumo.s);
      if condition.Some? && condition.value != "" {
        item := item.(condition := condition);
      }
    }
    if "umidade_max" in Keys(data.fields) {
      item := item.(humidity := Some(Lookup(data.fields, "umidade_max").value));
    }
    return Value(Some(item));
  }

  // ---------------------------------------------------------------------
  // The payload walk: outcomes of the steps, concatenated in order

  /** The items of a sequence of steps, in order; any step that raises
      makes the whole walk raise. */
  function Flatten<T>(os: seq<Outcome<seq<T>>>): Outcome<seq<T>>
  {
    if os == [] then Value([]) else Join(Flatten(os[..|os| - 1]), os[|os| - 1])
  }

  function Join<T>(a: Outcome<seq<T>>, b: Outcome<seq<T>>): (r: Outcome<seq<T>>)
    ensures r.Raised? <==> a.Raised? || b.Raised?
    ensures r.Value? ==> r.value == a.value + b.value
  {
    if a.Value? && b.Value? then Value(a.value + b.value) else Raised
  }

  /** The walk raises exactly when one of its steps does. */
  lemma {:induction false} FlattenRaisedIff<T>(os: seq<Outcome<seq<T>>>)
    ensures Flatten(os).Raised? <==> exists i :: 0 <= i < |os| && os[i].Raised?
  {
    if os != [] {
      var p := os[..|os| - 1];
      FlattenRaisedIff(p);
      assert forall i :: 0 <= i < |p| ==> p[i] == os[i];
    }
  }

  /** Walking `a` and then `b` joins the two walks. */
  lemma {:induction false} FlattenAppend<T>(a: seq<Outcome<seq<T>>>, b: seq<Outcome<seq<T>>>)
    ensures Flatten(a + b) == Join(Flatten(a), Flatten(b))
    decreases |b|
  {
    if b == [] {
      assert a + b == a;
      if Flatten(a).Value? {
        assert Flatten(a).value + [] == Flatten(a).value;
      }
    } else {
      var b' := b[..|b| - 1];
      assert (a + b)[..|a + b| - 1] == a + b';
      FlattenAppend(a, b');
      var last := b[|b| - 1];
      assert (a + b)[|a + b| - 1] == last;
      if Flatten(a).Value? && Flatten(b').Value? && last.Value? {
        assert Flatten(a).value + Flatten(b').value + last.value == Flatten(a).value + (Flatten(b').value + last.value);
      }
    }
  }

  /** A step contributes at most one item. */
  function AsList<T>(o: Outcome<Option<T>>): (r: Outcome<seq<T>>)
    ensures r.Raised? <==> o.Raised?
    ensures r.Value? ==> r.value == (if o.value.Some? then [o.value.value] else [])
  {
    match o
    case Raised => Raised
    case Value(None) => Value([])
    case Value(Some(x)) => Value([x])
  }

  /** One listed period of a multi-period date: skipped when absent. */
  function PeriodStep(date: Date, dateData: Json, period: string): Outcome<seq<ForecastItem>>
  {
    match PyIn(period, dateData)
    case Raised => Raised
    case Value(present) =>
      if !present then Value([])
      else
        match PySubscript(dateData, period)
        case Raised => Raised
        case Value(periodData) => AsList(ItemOf(date, periodData, Some(period)))
  }

  function PeriodSteps(date: Date, dateData: Json, periods: seq<string>): (os: seq<Outcome<seq<ForecastItem>>>)
    ensures |os| == |periods|
    ensures forall i :: 0 <= i < |periods| ==> os[i] == PeriodStep(date, dateData, periods[i])
  {
    seq(|periods|, i requires 0 <= i < |periods| => PeriodStep(date, dateData, periods[i]))
  }

  /** One `date_str: date_data` entry of a city. */
  function DateStep(dateStr: string, dateData: Json, periods: Option<seq<string>>,
                    parseDate: string -> Option<Date>): Outcome<seq<ForecastItem>>
  {
    match parseDate(dateStr)
    case None => Value([])
    case Some(date) =>
      match PyIn("uf", dateData)
      case Raised => Raised
      case Value(singlePeriod) =>
        if singlePeriod then AsList(ItemOf(date, dateData, None))
        else if periods.None? then
          match PyGet(dateData, "tarde", JObj([]))
          case Raised => Raised
          case Value(afternoon) => AsList(ItemOf(date, afternoon, Some("tarde")))
        else Flatten(PeriodSteps(date, dateData, periods.value))
  }

  function DateSteps(dates: seq<(string, Json)>, periods: Option<seq<string>>,
                     parseDate: string -> Option<Date>): (os: seq<Outcome<seq<ForecastItem>>>)
    ensures |os| == |dates|
    ensures forall i :: 0 <= i < |dates| ==> os[i] == DateStep(dates[i].0, dates[i].1, periods, parseDate)
  {
    seq(|dates|, i requires 0 <= i < |dates| => DateStep(dates[i].0, dates[i].1, periods, parseDate))
  }

  /** One city of the payload: its dates in order (`city_data.items()`). */
  function CityStep(cityData: Json, periods: Option<seq<string>>,
                    parseDate: string -> Option<Date>): Outcome<seq<ForecastItem>>
  {
    if !cityData.JObj? then Raised else Flatten(DateSteps(cityData.fields, periods, parseDate))
  }

  function CitySteps(cities: seq<Json>, periods: Option<seq<string>>,
                     parseDate: string -> Option<Date>): (os: seq<Outcome<seq<ForecastItem>>>)
    ensures |os| == |cities|
    ensures forall i :: 0 <= i < |cities| ==> os[i] == CityStep(cities[i], periods, parseDate)
  {
    seq(|cities|, i requires 0 <= i < |cities| => CityStep(cities[i], periods, parseDate))
  }

  /** Every item the payload yields, before truncation. */
  function AllItems(forecastData: Json, periods: Option<seq<string>>,
                    parseDate: string -> Option<Date>): Outcome<seq<ForecastItem>>
  {
    if !forecastData.JObj? then Raised
    else Flatten(CitySteps(Values(forecastData.fields), periods, parseDate))
  }

  /** Python's `s[:k]`: a negative bound counts from the end. */
  function PySliceTo<T>(s: seq<T>, k: int): (r: seq<T>)
    ensures k >= 0 ==> r == s[..if k <= |s| then k else |s|]
    ensures k < 0 ==> r == s[..if |s| + k >= 0 then |s| + k else 0]
  {
    if k >= 0 then s[..if k <= |s| then k else |s|]
    else s[..if |s| + k >= 0 then |s| + k else 0]
  }

  /** What `_parse_forecast_data` returns. */
  function ParsedForecast(forecastData: Json, maxItems: int, periods: Option<seq<string>>,
                          parseDate: string -> Option<Date>): seq<ForecastItem>
  {
    match AllItems(forecastData, periods, parseDate)
    case Raised => []
    case Value(items) => PySliceTo(items, maxItems)
  }

  lemma FlattenRaisedAt<T>(os: seq<Outcome<seq<T>>>, i: int)
    requires 0 <= i < |os| && os[i].Raised?
    ensures Flatten(os).Raised?
  {
    FlattenRaisedIff(os);
  }

  lemma FlattenStep<T>(os: seq<Outcome<seq<T>>>, k: int)
    requires 0 <= k < |os|
    ensures Flatten(os[..k + 1]) == Join(Flatten(os[..k]), os[k])
  {
    assert os[..k + 1][..k] == os[..k];
  }

  /** `_parse_forecast_data`: the loop over the cities, appending their
      items in order, then the slice. Each nested loop of the source is a
      method of its own below. */
  method ParseForecastData(forecastData: Json, maxItems: int, periods: Option<seq<string>>,
                           parseDate: string -> Option<Date>)
    returns (r: seq<ForecastItem>)
    ensures r == ParsedForecast(forecastData, maxItems, periods, parseDate)
  {
    if !forecastData.JObj? {
      return [];
    }
    var cities := Values(forecastData.fields);
    ghost var cityOutcomes := CitySteps(cities, periods, parseDate);
    var forecasts: seq<ForecastItem> := [];
    for c := 0 to |cities|
      invariant Flatten(cityOutcomes[..c]) == Value(forecasts)
    {
      FlattenStep(cityOutcomes, c);
      var items := ItemsForCity(cities[c], periods, parseDate);
      if items.Raised? {
        FlattenRaisedAt(cityOutcomes, c);
        return [];
      }
      forecasts := forecasts + items.value;
    }
    assert cityOutcomes[..|cities|] == cityOutcomes;
    return PySliceTo(forecasts, maxItems);
  }

  /** The loop over one city's `date_str: date_data` entries. */
  method ItemsForCity(cityData: Json, periods: Option<seq<string>>, parseDate: string -> Option<Date>)
    returns (r: Outcome<seq<ForecastItem>>)
    ensures r == CityStep(cityData, periods, parseDate)
  {
    if !cityData.JObj? {
      return Raised;
    }
    var dates := cityData.fields;
    ghost var dateOutcomes := DateSteps(dates, periods, parseDate);
    var appended: seq<ForecastItem> := [];
    for d := 0 to |dates|
      invariant Flatten(dateOutcomes[..d]) == Value(appended)
    {
      FlattenStep(dateOutcomes, d);
      var items := ItemsForDate(dates[d].0, dates[d].1, periods, parseDate);
      if items.Raised? {
        FlattenRaisedAt(dateOutcomes, d);
        return Raised;
      }
      appended := appended + items.value;
    }
    assert dateOutcomes[..|dates|] == dateOutcomes;
    return Value(appended);
  }

  /** The body of the date loop: the items one entry appends, or the
      exception it raises. */
  method ItemsForDate(dateStr: string, dateData: Json, periods: Option<seq<string>>,
                      parseDate: string -> Option<Date>)
    returns (r: Outcome<seq<ForecastItem>>)
    ensures r == DateStep(dateStr, dateData, periods, parseDate)
  {
    var dateObj := parseDate(dateStr);
    if dateObj.None? {
      return Value([]);
    }
    var date := dateObj.value;
    var singlePeriod := PyIn("uf", dateData);
    if singlePeriod.Raised? {
      return Raised;
    }
    if singlePeriod.value {
      var item := GenerateForecastItem(date, dateData, None);
      return AsList(item);
    }
    if periods.None? {
      var afternoon := PyGet(dateData, "tarde", JObj([]));
      if afternoon.Raised? {
        return Raised;
      }
      var item := GenerateForecastItem(date, afternoon.value, Some("tarde"));
      return AsList(item);
    }
    var ps := periods.value;
    ghost var periodOutcomes := PeriodSteps(date, dateData, ps);
    var appended: seq<ForecastItem> := [];
    for k := 0 to |ps|
      invariant Flatten(periodOutcomes[..k]) == Value(appended)
    {
      FlattenStep(periodOutcomes, k);
      var items := ItemsForPeriod(date, dateData, ps[k]);
      if items.Raised? {
        FlattenRaisedAt(periodOutcomes, k);
        return Raised;
      }
      appended := appended + items.value;
    }
    assert periodOutcomes[..|ps|] == periodOutcomes;
    return Value(appended);
  }

  /** The body of the period loop: the item of a listed period, if the
      date entry has it. */
  method ItemsForPeriod(date: Date, dateData: Json, periodKey: string) returns (r: Outcome<seq<ForecastItem>>)
    ensures r == PeriodStep(date, dateData, periodKey)
  {
    var present := PyIn(periodKey, dateData);
    if present.Raised? {
      return Raised;
    }
    if !present.value {
      return Value([]);
    }
    var periodData := PySubscript(dateData, periodKey);
    if periodData.Raised? {
      return Raised;
    }
    var item := GenerateForecastItem(date, periodData.value, Some(periodKey));
    return AsList(item);
  }

  // ---------------------------------------------------------------------
  // Properties of the payload walk

  /** The result is a prefix of the full list of items, at most
      `max_items` long (and empty when the walk raises). */
  lemma ParsedForecastIsBoundedPrefix(forecastData: Json, maxItems: int, periods: Option<seq<string>>,
                                      parseDate: string -> Option<Date>)
    ensures var r := ParsedForecast(forecastData, maxItems, periods, parseDate);
            var all := AllItems(forecastData, periods, parseDate);
            && (all.Raised? ==> r == [])
            && (all.Value? ==> r <= all.value)
            && (maxItems >= 0 ==> |r| <= maxItems)
            && (maxItems < 0 ==> all.Value? ==> |r| == if |all.value| + maxItems >= 0 then |all.value| + maxItems else 0)
            && (all.Value? && 0 <= maxItems <= |all.value| ==> |r| == maxItems)
  {
  }

  lemma DateStepsSplit(before: seq<(string, Json)>, entry: (string, Json), after: seq<(string, Json)>,
                       periods: Option<seq<string>>, parseDate: string -> Option<Date>)
    ensures DateSteps(before + [entry] + after, periods, parseDate) ==
              DateSteps(before, periods, parseDate) + [DateStep(entry.0, entry.1, periods, parseDate)] +
              DateSteps(after, periods, parseDate)
    ensures DateSteps(before + after, periods, parseDate) ==
              DateSteps(before, periods, parseDate) + DateSteps(after, periods, parseDate)
  {
  }

  /** A date key that does not parse as day/month/year contributes no
      items, and the dates after it are still walked: removing it changes
      nothing. */
  lemma UnparsableDateSkipped(before: seq<(string, Json)>, dateStr: string, dateData: Json, after: seq<(string, Json)>,
                              periods: Option<seq<string>>, parseDate: string -> Option<Date>)
    requires parseDate(dateStr).None?
    ensures CityStep(JObj(before + [(dateStr, dateData)] + after), periods, parseDate) ==
              CityStep(JObj(before + after), periods, parseDate)
  {
    var b := DateSteps(before, periods, parseDate);
    var a := DateSteps(after, periods, parseDate);
    DateStepsSplit(before, (dateStr, dateData), after, periods, parseDate);
    FlattenAppend(b + [Value([])], a);
    FlattenAppend(b, [Value([])]);
    FlattenAppend(b, a);
    var none: Outcome<seq<ForecastItem>> := Value([]);
    assert [none][..0] == [];
    if Flatten(b).Value? {
      assert Flatten(b).value + [] == Flatten(b).value;
    }
  }

  /** A date entry with a `uf` key is single-period data: one item, for
      the whole entry, stamped 06:00 — whatever the period list says. */
  lemma SinglePeriodDateGivesOneItem(dateStr: string, dateData: Json, periods: Option<seq<string>>,
                                     parseDate: string -> Option<Date>)
    requires parseDate(dateStr).Some?
    requires dateData.JObj? && "uf" in Keys(dateData.fields) && ResumoReadable(dateData)
    ensures var r := DateStep(dateStr, dateData, periods, parseDate);
            r.Value? && |r.value| == 1 &&
            Value(Some(r.value[0])) == ItemOf(parseDate(dateStr).value, dateData, None) &&
            r.value[0].hour == 6 && r.value[0].date == parseDate(dateStr).value
  {
  }

  /** Without a period list (the daily forecast) only the afternoon is
      read, stamped 12:00; a missing or empty afternoon gives no item. */
  lemma DailyForecastUsesAfternoon(dateStr: string, dateData: Json, parseDate: string -> Option<Date>)
    requires parseDate(dateStr).Some?
    requires dateData.JObj? && "uf" !in Keys(dateData.fields)
    ensures var afternoon := PyGet(dateData, "tarde", JObj([])).value;
            DateStep(dateStr, dateData, None, parseDate) == AsList(ItemOf(parseDate(dateStr).value, afternoon, Some("tarde")))
    ensures var afternoon := PyGet(dateData, "tarde", JObj([])).value;
            afternoon.JObj? && Truthy(afternoon) && ResumoReadable(afternoon) ==>
              var r := DateStep(dateStr, dateData, None, parseDate);
              r.Value? && |r.value| == 1 && r.value[0].hour == 12
    ensures !Truthy(PyGet(dateData, "tarde", JObj([])).value) ==> DateStep(dateStr, dateData, None, parseDate) == Value([])
  {
  }

  /** The listed periods in order, keeping those the date entry has. */
  function PresentPeriods(periods: seq<string>, dateData: Json): (ps: seq<string>)
    requires dateData.JObj?
    ensures forall p :: p in ps ==> p in periods && p in Keys(dateData.fields)
  {
    if periods == [] then []
    else
      var rest := PresentPeriods(periods[..|periods| - 1], dateData);
      if periods[|periods| - 1] in Keys(dateData.fields) then rest + [periods[|periods| - 1]] else rest
  }

  /** The item for a present period of a date entry. */
  function PeriodItem(date: Date, dateData: Json, period: string): Outcome<Option<ForecastItem>>
    requires dateData.JObj?
  {
    match Lookup(dateData.fields, period)
    case Some(periodData) => ItemOf(date, periodData, Some(period))
    case None => Value(None)
  }

  /** A period's data that yields an item without raising. */
  predicate ReadablePeriod(dateData: Json, period: string)
    requires dateData.JObj?
  {
    period in Keys(dateData.fields) ==>
      var periodData := Lookup(dateData.fields, period).value;
      periodData.JObj? && Truthy(periodData) && ResumoReadable(periodData)
  }

  /** A readable listed period gives exactly its item when present and
      nothing when absent. */
  lemma PeriodStepReadable(date: Date, dateData: Json, period: string)
    requires dateData.JObj? && ReadablePeriod(dateData, period)
    ensures period in Keys(dateData.fields) ==>
              PeriodItem(date, dateData, period).Value? && PeriodItem(date, dateData, period).value.Some? &&
              PeriodStep(date, dateData, period) == Value([PeriodItem(date, dateData, period).value.value])
    ensures period !in Keys(dateData.fields) ==> PeriodStep(date, dateData, period) == Value([])
  {
  }

  lemma {:induction false} PeriodStepsInOrder(date: Date, dateData: Json, periods: seq<string>)
    requires dateData.JObj?
    requires forall i :: 0 <= i < |periods| ==> ReadablePeriod(dateData, periods[i])
    ensures var present := PresentPeriods(periods, dateData);
            var r := Flatten(PeriodSteps(date, dateData, periods));
            && r.Value? && |r.value| == |present|
            && forall k :: 0 <= k < |present| ==>
                 Value(Some(r.value[k])) == PeriodItem(date, dateData, present[k])
  {
    if periods != [] {
      var n := |periods| - 1;
      var init := periods[..n];
      var last := periods[n];
      assert forall i :: 0 <= i < |init| ==> init[i] == periods[i];
      PeriodStepsInOrder(date, dateData, init);
      var os := PeriodSteps(date, dateData, periods);
      assert os[..n] == PeriodSteps(date, dateData, init);
      PeriodStepReadable(date, dateData, last);
      var prev := Flatten(PeriodSteps(date, dateData, init)).value;
      var presentInit := PresentPeriods(init, dateData);
      if last in Keys(dateData.fields) {
        var x := PeriodItem(date, dateData, last).value.value;
        var r := Flatten(os).value;
        assert r == prev + [x];
        assert PresentPeriods(periods, dateData) == presentInit + [last];
        forall k | 0 <= k < |presentInit| + 1
          ensures Value(Some(r[k])) == PeriodItem(date, dateData, (presentInit + [last])[k])
        {
          if k < |presentInit| {
            assert r[k] == prev[k];
          }
        }
      } else {
        assert Flatten(os).value == prev + [];
        assert prev + [] == prev;
      }
    }
  }

  /** With a period list, a multi-period date gives one item per listed
      period it has, in the list's order, each stamped with that period's
      hour; listed periods it lacks give nothing. */
  lemma ListedPeriodsInOrder(dateStr: string, dateData: Json, periods: seq<string>,
                             parseDate: string -> Option<Date>)
    requires parseDate(dateStr).Some?
    requires dateData.JObj? && "uf" !in Keys(dateData.fields)
    requires forall i :: 0 <= i < |periods| ==> ReadablePeriod(dateData, periods[i])
    ensures var present := PresentPeriods(periods, dateData);
            var r := DateStep(dateStr, dateData, Some(periods), parseDate);
            && r.Value? && |r.value| == |present|
            && forall k :: 0 <= k < |present| ==>
                 Value(Some(r.value[k])) == PeriodItem(parseDate(dateStr).value, dateData, present[k]) &&
                 r.value[k].hour == HourFor(Some(present[k]))
  {
    PeriodStepsInOrder(parseDate(dateStr).value, dateData, periods);
  }

  /** A truthy dict with a readable summary always gives an item, built
      from its fields. */
  lemma ItemOfFields(date: Date, data: Json, period: Option<string>)
    requires data.JObj? && Truthy(data) && ResumoReadable(data)
    ensures var resumo := PyGet(data, "resumo", JStr("")).value;
            ItemOf(date, data, period) == Value(Some(ForecastItem(
              date, HourFor(period),
              PyGet(data, "temp_max", JNull).value,
              PyGet(data, "temp_min", JNull).value,
              PyGet(data, "dir-vento", JNull).value,
              if Truthy(resumo) then FirstMatch(CONDITION_MAP, Lower(resumo.s)) else None,
              Lookup(data.fields, "umidade_max"))))
  {
    var resumo := PyGet(data, "resumo", JStr("")).value;
    if Truthy(resumo) {
      MatchedConditionNonEmpty(Lower(resumo.s));
    }
  }

  /** A dict whose summary is a non-empty string mapping to condition `c`
      gives the item with that condition. */
  lemma ItemWithSummary(date: Date, data: Json, period: Option<string>, summary: string, c: string)
    requires data.JObj? && PyGet(data, "resumo", JStr("")) == Value(JStr(summary)) && summary != ""
    requires FirstMatch(CONDITION_MAP, Lower(summary)) == Some(c)
    ensures ItemOf(date, data, period) == Value(Some(ForecastItem(
              date, HourFor(period),
              PyGet(data, "temp_max", JNull).value,
              PyGet(data, "temp_min", JNull).value,
              PyGet(data, "dir-vento", JNull).value,
              Some(c),
              Lookup(data.fields, "umidade_max"))))
  {
    ItemOfFields(date, data, period);
  }

  /** Of the three periods, a morning-and-afternoon entry has the first two. */
  lemma MorningAndAfternoonPresent(morning: Json, afternoon: Json)
    ensures PresentPeriods(ALL_PERIODS, JObj([("manha", morning), ("tarde", afternoon)])) == ["manha", "tarde"]
  {
    var dateData := JObj([("manha", morning), ("tarde", afternoon)]);
    assert Keys(dateData.fields) == ["manha", "tarde"];
    assert ["manha"][..0] == [];
    assert PresentPeriods(["manha"], dateData) == ["manha"];
    assert ["manha", "tarde"][..1] == ["manha"];
    assert PresentPeriods(["manha", "tarde"], dateData) == ["manha", "tarde"];
    assert ALL_PERIODS[..2] == ["manha", "tarde"];
  }

  /** The shape of a morning-and-afternoon entry. */
  lemma MorningAndAfternoonShape(morning: Json, afternoon: Json)
    ensures var dateData := JObj([("manha", morning), ("tarde", afternoon)]);
            && Keys(dateData.fields) == ["manha", "tarde"]
            && Lookup(dateData.fields, "manha") == Some(morning)
            && Lookup(dateData.fields, "tarde") == Some(afternoon)
  {
  }

  /** A multi-period entry whose only periods are a readable morning and
      afternoon yields their two items, in that order. */
  lemma TwoPeriodItems(dateStr: string, dateData: Json, morning: Json, afternoon: Json,
                       parseDate: string -> Option<Date>)
    requires parseDate(dateStr).Some?
    requires dateData.JObj? && Keys(dateData.fields) == ["manha", "tarde"]
    requires Lookup(dateData.fields, "manha") == Some(morning) && Lookup(dateData.fields, "tarde") == Some(afternoon)
    requires morning.JObj? && Truthy(morning) && ResumoReadable(morning)
    requires afternoon.JObj? && Truthy(afternoon) && ResumoReadable(afternoon)
    requires PresentPeriods(ALL_PERIODS, dateData) == ["manha", "tarde"]
    ensures var date := parseDate(dateStr).value;
            var r := DateStep(dateStr, dateData, Some(ALL_PERIODS), parseDate);
            && r.Value? && |r.value| == 2
            && Value(Some(r.value[0])) == PeriodItem(date, dateData, "manha")
            && Value(Some(r.value[1])) == PeriodItem(date, dateData, "tarde")
  {
    assert ReadablePeriod(dateData, "manha") && ReadablePeriod(dateData, "tarde") && ReadablePeriod(dateData, "noite");
    ListedPeriodsInOrder(dateStr, dateData, ALL_PERIODS, parseDate);
  }

  /** A date entry with a readable morning and afternoon and no night
      yields the morning item, then the afternoon item. */
  lemma MorningAndAfternoonItems(dateStr: string, morning: Json, afternoon: Json, parseDate: string -> Option<Date>)
    requires parseDate(dateStr).Some?
    requires morning.JObj? && Truthy(morning) && ResumoReadable(morning)
    requires afternoon.JObj? && Truthy(afternoon) && ResumoReadable(afternoon)
    ensures var date := parseDate(dateStr).value;
            var r := DateStep(dateStr, JObj([("manha", morning), ("tarde", afternoon)]), Some(ALL_PERIODS), parseDate);
            && r.Value? && |r.value| == 2
            && Value(Some(r.value[0])) == ItemOf(date, morning, Some("manha"))
            && Value(Some(r.value[1])) == ItemOf(date, afternoon, Some("tarde"))
  {
    MorningAndAfternoonShape(morning, afternoon);
    MorningAndAfternoonPresent(morning, afternoon);
    TwoPeriodItems(dateStr, JObj([("manha", morning), ("tarde", afternoon)]), morning, afternoon, parseDate);
  }

  /** A payload of one city with one date entry parses to that entry's
      items (truncated to the bound). */
  lemma SingleEntryPayload(cityKey: string, dateStr: string, dateData: Json, maxItems: int,
                           periods: Option<seq<string>>, parseDate: string -> Option<Date>)
    requires DateStep(dateStr, dateData, periods, parseDate).Value?
    ensures ParsedForecast(JObj([(cityKey, JObj([(dateStr, dateData)]))]), maxItems, periods, parseDate) ==
              PySliceTo(DateStep(dateStr, dateData, periods, parseDate).value, maxItems)
  {
    var items := DateStep(dateStr, dateData, periods, parseDate);
    var city := [(dateStr, dateData)];
    assert DateSteps(city, periods, parseDate) == [items];
    assert [items][..0] == [];
    assert [] + items.value == items.value;
    var cityData := JObj(city);
    var cityItems := CityStep(cityData, periods, parseDate);
    assert Flatten([items]) == Join(Flatten([items][..0]), items);
    assert Flatten(DateSteps(city, periods, parseDate)) == items;
    assert cityItems == items;
    assert Values([(cityKey, cityData)]) == [cityData];
    assert CitySteps([cityData], periods, parseDate) == [cityItems];
    assert [cityItems][..0] == [];
    assert [] + cityItems.value == cityItems.value;
    assert Flatten([cityItems]) == Join(Flatten([cityItems][..0]), cityItems);
  }

  // ---------------------------------------------------------------------
  // The entity's forecast properties

  /** `forecast`, `async_forecast_twice_daily` and `async_forecast_daily`:
      None without coordinator data or a `forecast` key, else the parsed
      payload. The presence test raises for a truthy non-container. */
  function EntityForecast(data: Json, maxItems: int, periods: Option<seq<string>>,
                          parseDate: string -> Option<Date>): Outcome<Option<seq<ForecastItem>>>
  {
    if !Truthy(data) then Value(None)
    else
      match PyIn("forecast", data)
      case Raised => Raised
      case Value(hasForecast) =>
        if !hasForecast then Value(None)
        else
          match PySubscript(data, "forecast")
          case Raised => Raised
          case Value(forecastData) => Value(Some(ParsedForecast(forecastData, maxItems, periods, parseDate)))
  }

  method EntityForecastWith(data: Json, maxItems: int, periods: Option<seq<string>>,
                            parseDate: string -> Option<Date>)
    returns (r: Outcome<Option<seq<ForecastItem>>>)
    ensures r == EntityForecast(data, maxItems, periods, parseDate)
  {
    if !Truthy(data) {
      return Value(None);
    }
    var hasForecast := PyIn("forecast", data);
    if hasForecast.Raised? {
      return Raised;
    }
    if !hasForecast.value {
      return Value(None);
    }
    var forecastData := PySubscript(data, "forecast");
    if forecastData.Raised? {
      return Raised;
    }
    var items := ParseForecastData(forecastData.value, maxItems, periods, parseDate);
    return Value(Some(items));
  }

  /** `forecast`: all three periods, at most 15 items. */
  method Forecast(data: Json, parseDate: string -> Option<Date>) returns (r: Outcome<Option<seq<ForecastItem>>>)
    ensures r == EntityForecast(data, 15, Some(ALL_PERIODS), parseDate)
    ensures r.Value? && r.value.Some? ==> |r.value.value| <= 15
  {
    r := EntityForecastWith(data, 15, Some(ALL_PERIODS), parseDate);
    ForecastBounded(data, 15, Some(ALL_PERIODS), parseDate);
  }

  /** `async_forecast_twice_daily`: all three periods, at most 14 items. */
  method ForecastTwiceDaily(data: Json, parseDate: string -> Option<Date>) returns (r: Outcome<Option<seq<ForecastItem>>>)
    ensures r == EntityForecast(data, 14, Some(ALL_PERIODS), parseDate)
    ensures r.Value? && r.value.Some? ==> |r.value.value| <= 14
  {
    r := EntityForecastWith(data, 14, Some(ALL_PERIODS), parseDate);
    ForecastBounded(data, 14, Some(ALL_PERIODS), parseDate);
  }

  /** `async_forecast_daily`: afternoons only, at most 7 items. */
  method ForecastDaily(data: Json, parseDate: string -> Option<Date>) returns (r: Outcome<Option<seq<ForecastItem>>>)
    ensures r == EntityForecast(data, 7, None, parseDate)
    ensures r.Value? && r.value.Some? ==> |r.value.value| <= 7
  {
    r := EntityForecastWith(data, 7, None, parseDate);
    ForecastBounded(data, 7, None, parseDate);
  }

  /** The entity's forecast is never longer than the caller's bound, and is
      None exactly when there is no data or no `forecast` key (for dict data). */
  lemma ForecastBounded(data: Json, maxItems: int, periods: Option<seq<string>>, parseDate: string -> Option<Date>)
    requires maxItems >= 0
    ensures var r := EntityForecast(data, maxItems, periods, parseDate);
            r.Value? && r.value.Some? ==> |r.value.value| <= maxItems
    ensures data.JObj? ==>
              (EntityForecast(data, maxItems, periods, parseDate) == Value(None) <==> "forecast" !in Keys(data.fields))
  {
    if data.JObj? && Truthy(data) && "forecast" in Keys(data.fields) {
      ParsedForecastIsBoundedPrefix(PySubscript(data, "forecast").value, maxItems, periods, parseDate);
    }
    if Truthy(data) && PyIn("forecast", data) == Value(true) && PySubscript(data, "forecast").Value? {
      ParsedForecastIsBoundedPrefix(PySubscript(data, "forecast").value, maxItems, periods, parseDate);
    }
  }

  // ---------------------------------------------------------------------
  // The current condition

  /** The loop of `condition` over the cities: the first city that has
      today's date and a non-empty summary for the current period decides. */
  function ConditionScan(cities: seq<Json>, today: string, period: string): Outcome<Option<string>>
  {
    if cities == [] then Value(None)
    else
      match PyIn(today, cities[0])
      case Raised => Raised
      case Value(hasToday) =>
        if !hasToday then ConditionScan(cities[1..], today, period)
        else
          match PySubscript(cities[0], today)
          case Raised => Raised
          case Value(todayData) =>
            match PyGet(todayData, period, JObj([]))
            case Raised => Raised
            case Value(periodData) =>
              match PyGet(periodData, "resumo", JStr(""))
              case Raised => Raised
              case Value(resumo) =>
                if !Truthy(resumo) then ConditionScan(cities[1..], today, period)
                else if !resumo.JStr? then Raised
                else Value(FirstMatch(CONDITION_MAP, Lower(resumo.s)))
  }

  /** The `condition` property, for today's date string and the current hour. */
  function ConditionOf(data: Json, today: string, hour: int): Outcome<Option<string>>
  {
    if !Truthy(data) then Value(None)
    else
      match PyIn("forecast", data)
      case Raised => Raised
      case Value(hasForecast) =>
        if !hasForecast then Value(None)
        else
          match PySubscript(data, "forecast")
          case Raised => Raised
          case Value(forecastData) =>
            if !forecastData.JObj? then Raised
            else ConditionScan(Values(forecastData.fields), today, CurrentPeriod(hour))
  }

  /** The first city holding a non-empty summary string for today's
      period decides the condition: the table lookup of that summary. */
  lemma ConditionScanDecidedBySummary(cities: seq<Json>, today: string, period: string,
                                      day: seq<(string, Json)>, periodData: seq<(string, Json)>, summary: string)
    requires cities != [] && cities[0].JObj? && Lookup(cities[0].fields, today) == Some(JObj(day))
    requires Lookup(day, period) == Some(JObj(periodData))
    requires Lookup(periodData, "resumo") == Some(JStr(summary)) && summary != ""
    ensures ConditionScan(cities, today, period) == Value(FirstMatch(CONDITION_MAP, Lower(summary)))
  {
    assert PyIn(today, cities[0]) == Value(true);
    assert PySubscript(cities[0], today) == Value(JObj(day));
    assert PyGet(JObj(day), period, JObj([])) == Value(JObj(periodData));
    var resumo := PyGet(JObj(periodData), "resumo", JStr(""));
    assert resumo == Value(JStr(summary));
    var lowered := Lower(summary);
    assert Truthy(resumo.value) && resumo.value.JStr? && Lower(resumo.value.s) == lowered;
    assert ConditionScan(cities, today, period) == Value(FirstMatch(CONDITION_MAP, Lower(resumo.value.s)));
  }

  /** A city without today's date, or whose entry for today lacks the
      period, is passed over for the next one. */
  lemma ConditionScanSkipsCity(cities: seq<Json>, today: string, period: string)
    requires cities != [] && cities[0].JObj?
    requires today in Keys(cities[0].fields) ==>
               Lookup(cities[0].fields, today).value.JObj? &&
               period !in Keys(Lookup(cities[0].fields, today).value.fields)
    ensures ConditionScan(cities, today, period) == ConditionScan(cities[1..], today, period)
  {
    if today in Keys(cities[0].fields) {
      var day := Lookup(cities[0].fields, today).value;
      assert PySubscript(cities[0], today) == Value(day);
      assert PyGet(day, period, JObj([])) == Value(JObj([]));
      assert PyGet(JObj([]), "resumo", JStr("")) == Value(JStr(""));
    }
  }

  /** `condition`: walk the cities until one answers. */
  method Condition(data: Json, today: string, hour: int) returns (r: Outcome<Option<string>>)
    ensures r == ConditionOf(data, today, hour)
  {
    if !Truthy(data) {
      return Value(None);
    }
    var hasForecast := PyIn("forecast", data);
    if hasForecast.Raised? {
      return Raised;
    }
    if !hasForecast.value {
      return Value(None);
    }
    var forecastData := PySubscript(data, "forecast");
    if forecastData.Raised? || !forecastData.value.JObj? {
      return Raised;
    }
    var cities := Values(forecastData.value.fields);
    var period := CurrentPeriod(hour);
    for i := 0 to |cities|
      invariant ConditionOf(data, today, hour) == ConditionScan(cities[i..], today, period)
    {
      assert cities[i..][1..] == cities[i + 1..];
      var cityData := cities[i];
      var hasToday := PyIn(today, cityData);
      if hasToday.Raised? {
        return Raised;
      }
      if hasToday.value {
        var todayData := PySubscript(cityData, today);
        if todayData.Raised? {
          return Raised;
        }
        var periodData := PyGet(todayData.value, period, JObj([]));
        if periodData.Raised? {
          return Raised;
        }
        var resumo := PyGet(periodData.value, "resumo", JStr(""));
        if resumo.Raised? {
          return Raised;
        }
        if Truthy(resumo.value) {
          if !resumo.value.JStr? {
            return Raised;
          }
          var mapped := MapCondition(resumo.value.s);
          return Value(mapped);
        }
      }
    }
    return Value(None);
  }

  // ---------------------------------------------------------------------
  // Current values

  /** `_safe_float`: None for a null, otherwise `float(val)` with a type or
      value error turned into None. */
  function SafeFloat(val: Json, parseFloat: string -> Option<real>): (r: Option<real>)
    ensures val.JNull? ==> r.None?
    ensures val.JNum? ==> r == Some(val.n)
    ensures val.JBool? ==> r == Some(if val.b then 1.0 else 0.0)
    ensures val.JStr? ==> r == parseFloat(val.s)
    ensures val.JArr? || val.JObj? ==> r.None?
  {
    if val.JNull? then None
    else
      match PyFloat(val, parseFloat)
      case Value(x) => Some(x)
      case Raised => None
  }

  /** `_get_current_data(key)` on the coordinator's data. */
  function CurrentData(data: Json, key: string, parseFloat: string -> Option<real>): Outcome<Option<real>>
  {
    if !Truthy(data) then Value(None)
    else
      match PyIn("current", data)
      case Raised => Raised
      case Value(hasCurrent) =>
        if !hasCurrent then Value(None)
        else
          match PySubscript(data, "current")
          case Raised => Raised
          case Value(current) =>
            match PyIn("dados", current)
            case Raised => Raised
            case Value(hasDados) =>
              if !hasDados then Value(None)
              else
                match PySubscript(current, "dados")
                case Raised => Raised
                case Value(dados) =>
                  match PyGet(dados, key, JNull)
                  case Raised => Raised
                  case Value(val) => Value(SafeFloat(val, parseFloat))
  }

  /** Dict data without a `current` key has no current values. */
  lemma CurrentDataWithoutCurrent(fields: seq<(string, Json)>, key: string, parseFloat: string -> Option<real>)
    requires "current" !in Keys(fields)
    ensures CurrentData(JObj(fields), key, parseFloat) == Value(None)
  {
  }

  /** A `current` dict without `dados` has no values; a `dados` that is
      not a dict makes `.get` raise. */
  lemma CurrentDataWithoutReadings(current: seq<(string, Json)>, key: string, parseFloat: string -> Option<real>)
    ensures "dados" !in Keys(current) ==>
              CurrentData(JObj([("current", JObj(current))]), key, parseFloat) == Value(None)
    ensures "dados" in Keys(current) && !Lookup(current, "dados").value.JObj? ==>
              CurrentData(JObj([("current", JObj(current))]), key, parseFloat) == Raised
  {
    var data := JObj([("current", JObj(current))]);
    assert Lookup(data.fields, "current") == Some(JObj(current));
  }

  /** With readings present the value is `_safe_float` of the reading,
      with a missing key read as null (so as None). */
  lemma CurrentDataReading(dados: seq<(string, Json)>, key: string, parseFloat: string -> Option<real>)
    ensures CurrentData(JObj([("current", JObj([("dados", JObj(dados))]))]), key, parseFloat) ==
              Value(SafeFloat(if key in Keys(dados) then Lookup(dados, key).value else JNull, parseFloat))
  {
    var current := JObj([("dados", JObj(dados))]);
    var data := JObj([("current", current)]);
    assert Keys(data.fields) == ["current"] && Keys(current.fields) == ["dados"];
    assert PyIn("current", data) == Value(true) && PySubscript(data, "current") == Value(current);
    assert PyIn("dados", current) == Value(true) && PySubscript(current, "dados") == Value(JObj(dados));
  }
}
