/** Facts about the shipped condition table and about the payloads the
    repository's tests use: which entries the table's order shadows, the
    conditions the tests' summaries map to, and the forecast, condition
    and current-value readings of the test payloads. */
module WeatherFacts {
  import opened Common
  import opened JsonValue
  import opened Const
  import opened Weather

  /** "chuva" occurs in both "pouring" keys; "nublado" occurs in
      "parcialmente nublado". */
  lemma ShadowingKeys()
    ensures IsSubstring(CONDITION_MAP[4].0, CONDITION_MAP[5].0)
    ensures IsSubstring(CONDITION_MAP[4].0, CONDITION_MAP[6].0)
    ensures IsSubstring(CONDITION_MAP[2].0, CONDITION_MAP[19].0)
  {
    assert MatchAt("chuva", "pancadas de chuva", 12);
    assert MatchAt("chuva", "pancada de chuva", 11);
    assert MatchAt("nublado", "parcialmente nublado", 13);
  }

  /** Because "chuva" is scanned first, no summary maps to "pouring". */
  lemma NeverPouring(resumo: string)
    ensures FirstMatch(CONDITION_MAP, Lower(resumo)) != Some("pouring")
  {
    ShadowingKeys();
    var shadow := seq(20, i => 4);
    assert forall i :: 0 <= i < |CONDITION_MAP| && CONDITION_MAP[i].1 == "pouring" ==> i == 5 || i == 6;
    ShadowedValueNeverReturned(CONDITION_MAP, Lower(resumo), "pouring", shadow);
  }

  /** Because "nublado" is scanned first, the "parcialmente nublado" entry
      is never the one chosen. */
  lemma PartlyCloudyPhraseShadowed(resumo: string)
    ensures !IsFirstMatch(CONDITION_MAP, Lower(resumo), 19)
  {
    ShadowingKeys();
    ShadowedEntryNeverFirst(CONDITION_MAP, Lower(resumo), 19, 2);
  }

  /** "Muitas nuvens", in any letter case (the summary of the condition
      test), is cloudy: "poucas nuvens" has a 'p' it lacks. */
  lemma ManyCloudsIsCloudy(resumo: string)
    requires Lower(resumo) == "muitas nuvens"
    ensures FirstMatch(CONDITION_MAP, Lower(resumo)) == Some("cloudy")
  {
    FirstMatchByWitnesses(CONDITION_MAP, Lower(resumo), 1, "p", 0);
  }

  /** "Limpo", in any letter case, is sunny: each of the ten keys before
      "limpo" has a letter it lacks. */
  lemma ClearIsSunny(resumo: string)
    requires Lower(resumo) == "limpo"
    ensures FirstMatch(CONDITION_MAP, Lower(resumo)) == Some("sunny")
  {
    FirstMatchByWitnesses(CONDITION_MAP, Lower(resumo), 10, "uunecaattn", 0);
  }

  /** "Pancadas de chuva" is rainy, not pouring: "chuva" (at position 12)
      is reached first, the four keys before it each having a letter the
      summary lacks. */
  lemma ShowersAreRainy(resumo: string)
    requires Lower(resumo) == "pancadas de chuva"
    ensures FirstMatch(CONDITION_MAP, Lower(resumo)) == Some("rainy")
  {
    FirstMatchByWitnesses(CONDITION_MAP, Lower(resumo), 4, "ombo", 12);
  }

  /** "Parcialmente nublado" is cloudy, not partly cloudy: "nublado" (at
      position 13) is reached first. */
  lemma PartlyOvercastIsCloudy(resumo: string)
    requires Lower(resumo) == "parcialmente nublado"
    ensures FirstMatch(CONDITION_MAP, Lower(resumo)) == Some("cloudy")
  {
    FirstMatchByWitnesses(CONDITION_MAP, Lower(resumo), 2, "vv", 13);
  }

  /** "Poucas nuvens", in any letter case, is partly cloudy: it is the
      first key. */
  lemma FewCloudsIsPartlyCloudy(resumo: string)
    requires Lower(resumo) == "poucas nuvens"
    ensures FirstMatch(CONDITION_MAP, Lower(resumo)) == Some("partlycloudy")
  {
    FirstMatchByWitnesses(CONDITION_MAP, Lower(resumo), 0, "", 0);
  }

  /** The capitalised summaries of the tests lower to those phrases. */
  lemma ManyCloudsLower()
    ensures Lower("Muitas nuvens") == "muitas nuvens"
  {
  }

  lemma FewCloudsLower()
    ensures Lower("Poucas nuvens") == "poucas nuvens"
  {
  }

  /** An empty summary maps to no condition: every key is non-empty. */
  lemma EmptySummaryHasNoCondition()
    ensures FirstMatch(CONDITION_MAP, Lower("")).None?
  {
    KeysAreDistinct();
    assert Lower("") == "";
    FirstMatchSpec(CONDITION_MAP, "");
  }

  /** The payload of the forecast-parsing test: one city, one date, with a
      morning and an afternoon entry. */
  function SampleMorning(): Json
  {
    SummaryRecord("Muitas nuvens", JNum(32.0), JNum(20.0), JNum(90.0))
  }

  function SampleAfternoon(): Json
  {
    SummaryRecord("Poucas nuvens", JNum(30.0), JNum(22.0), JNum(85.0))
  }

  function SampleDate(): Json
  {
    JObj([("manha", SampleMorning()), ("tarde", SampleAfternoon())])
  }

  /** A period record shaped like the sample's: summary, maximum, minimum
      and humidity, and no wind direction. */
  function SummaryRecord(summary: string, high: Json, low: Json, humidity: Json): Json
  {
    JObj([("resumo", JStr(summary)), ("temp_max", high), ("temp_min", low), ("umidade_max", humidity)])
  }

  lemma SummaryRecordLookups(summary: string, high: Json, low: Json, humidity: Json)
    ensures var f := SummaryRecord(summary, high, low, humidity).fields;
            && Lookup(f, "resumo") == Some(JStr(summary))
            && Lookup(f, "temp_max") == Some(high)
            && Lookup(f, "temp_min") == Some(low)
            && Lookup(f, "umidade_max") == Some(humidity)
            && Lookup(f, "dir-vento") == None
  {
    var f := SummaryRecord(summary, high, low, humidity).fields;
    assert f[1..][1..] == f[2..] && f[2..][1..] == f[3..] && f[3..][1..] == [];
    assert Lookup(f[3..], "umidade_max") == Some(humidity);
    assert Lookup(f[2..], "umidade_max") == Some(humidity);
    assert Lookup(f[1..], "umidade_max") == Some(humidity);
    assert Lookup(f[2..], "temp_min") == Some(low);
    assert Lookup(f[1..], "temp_min") == Some(low);
    assert Lookup(f[1..], "temp_max") == Some(high);
    assert Lookup(f[3..], "dir-vento") == None;
    assert Lookup(f[2..], "dir-vento") == None;
    assert Lookup(f[1..], "dir-vento") == None;
  }

  /** Such a record gives the item of those values. */
  lemma SummaryRecordItem(date: Date, period: Option<string>, summary: string, high: Json, low: Json,
                          humidity: Json, c: string)
    requires summary != "" && FirstMatch(CONDITION_MAP, Lower(summary)) == Some(c)
    ensures ItemOf(date, SummaryRecord(summary, high, low, humidity), period) ==
              Value(Some(ForecastItem(date, HourFor(period), high, low, JNull, Some(c), Some(humidity))))
  {
    var d := SummaryRecord(summary, high, low, humidity);
    SummaryRecordLookups(summary, high, low, humidity);
    assert PyGet(d, "resumo", JStr("")) == Value(JStr(summary));
    assert PyGet(d, "temp_max", JNull) == Value(high);
    assert PyGet(d, "temp_min", JNull) == Value(low);
    assert PyGet(d, "dir-vento", JNull) == Value(JNull);
    ItemWithSummary(date, d, period, summary, c);
  }

  /** The morning item of the sample: cloudy, 32/20, humidity 90. */
  lemma SampleMorningItem(date: Date)
    ensures ItemOf(date, SampleMorning(), Some("manha")) ==
              Value(Some(ForecastItem(date, 6, JNum(32.0), JNum(20.0), JNull, Some("cloudy"), Some(JNum(90.0)))))
  {
    ManyCloudsLower();
    ManyCloudsIsCloudy("Muitas nuvens");
    PeriodNameHours();
    SummaryRecordItem(date, Some("manha"), "Muitas nuvens", JNum(32.0), JNum(20.0), JNum(90.0), "cloudy");
  }

  /** The afternoon item of the sample: partly cloudy, 30/22, humidity 85. */
  lemma SampleAfternoonItem(date: Date)
    ensures ItemOf(date, SampleAfternoon(), Some("tarde")) ==
              Value(Some(ForecastItem(date, 12, JNum(30.0), JNum(22.0), JNull, Some("partlycloudy"), Some(JNum(85.0)))))
  {
    FewCloudsLower();
    FewCloudsIsPartlyCloudy("Poucas nuvens");
    PeriodNameHours();
    SummaryRecordItem(date, Some("tarde"), "Poucas nuvens", JNum(30.0), JNum(22.0), JNum(85.0), "partlycloudy");
  }

  /** The forecast-parsing test: two items, the morning (32/20, humidity
      90, cloudy) before the afternoon (30/22). */
  lemma SampleForecastParsing(parseDate: string -> Option<Date>)
    requires parseDate("17/10/2025") == Some(Date(2025, 10, 17))
    ensures var r := ParsedForecast(JObj([("3304557", JObj([("17/10/2025", SampleDate())]))]), 15, Some(ALL_PERIODS), parseDate);
            && |r| == 2
            && r[0] == ForecastItem(Date(2025, 10, 17), 6, JNum(32.0), JNum(20.0), JNull, Some("cloudy"), Some(JNum(90.0)))
            && r[1] == ForecastItem(Date(2025, 10, 17), 12, JNum(30.0), JNum(22.0), JNull, Some("partlycloudy"), Some(JNum(85.0)))
  {
    var morning, afternoon := SampleMorning(), SampleAfternoon();
    assert ResumoReadable(morning) by {
      assert PyGet(morning, "resumo", JStr("")) == Value(JStr("Muitas nuvens"));
    }
    assert ResumoReadable(afternoon) by {
      assert PyGet(afternoon, "resumo", JStr("")) == Value(JStr("Poucas nuvens"));
    }
    MorningAndAfternoonItems("17/10/2025", morning, afternoon, parseDate);
    SampleMorningItem(Date(2025, 10, 17));
    SampleAfternoonItem(Date(2025, 10, 17));
    SingleEntryPayload("3304557", "17/10/2025", SampleDate(), 15, Some(ALL_PERIODS), parseDate);
  }

  /** Coordinator data with one city whose 17/10/2025 entry has only a
      morning summary, "Muitas nuvens". */
  function MorningOnlyData(): Json
  {
    JObj([("forecast", JObj([("3304557", JObj([("17/10/2025", JObj([("manha", JObj([("resumo", JStr("Muitas nuvens"))]))]))]))]))])
  }

  lemma MorningOnlyDataScan(hour: int)
    ensures ConditionOf(MorningOnlyData(), "17/10/2025", hour) ==
              ConditionScan([JObj([("17/10/2025", JObj([("manha", JObj([("resumo", JStr("Muitas nuvens"))]))]))])],
                            "17/10/2025", CurrentPeriod(hour))
  {
    var city := JObj([("17/10/2025", JObj([("manha", JObj([("resumo", JStr("Muitas nuvens"))]))]))]);
    var forecast := JObj([("3304557", city)]);
    assert PyIn("forecast", MorningOnlyData()) == Value(true);
    assert PySubscript(MorningOnlyData(), "forecast") == Value(forecast);
    assert Values(forecast.fields) == [city];
  }

  /** Before noon the morning summary decides: cloudy. */
  lemma MorningConditionIsCloudy()
    ensures ConditionOf(MorningOnlyData(), "17/10/2025", 10) == Value(Some("cloudy"))
  {
    MorningOnlyDataScan(10);
    var manha := [("resumo", JStr("Muitas nuvens"))];
    var day := [("manha", JObj(manha))];
    var city := JObj([("17/10/2025", JObj(day))]);
    assert Lookup(city.fields, "17/10/2025") == Some(JObj(day));
    assert Lookup(day, "manha") == Some(JObj(manha));
    assert Lookup(manha, "resumo") == Some(JStr("Muitas nuvens"));
    ConditionScanDecidedBySummary([city], "17/10/2025", "manha", day, manha, "Muitas nuvens");
    ManyCloudsLower();
    ManyCloudsIsCloudy("Muitas nuvens");
  }

  /** In the afternoon the entry has no afternoon summary, so the next
      city would be consulted; there is none, so there is no condition. */
  lemma AfternoonWithoutEntryHasNoCondition()
    ensures ConditionOf(MorningOnlyData(), "17/10/2025", 14) == Value(None)
  {
    MorningOnlyDataScan(14);
    var day := JObj([("manha", JObj([("resumo", JStr("Muitas nuvens"))]))]);
    var city := JObj([("17/10/2025", day)]);
    assert Keys(city.fields) == ["17/10/2025"] && Lookup(city.fields, "17/10/2025") == Some(day);
    assert Keys(day.fields) == ["manha"];
    ConditionScanSkipsCity([city], "17/10/2025", "tarde");
    assert [city][1..] == [];
  }

  /** An unparseable string such as "invalid" reads as no value. */
  lemma InvalidReadingIsNone(parseFloat: string -> Option<real>)
    requires parseFloat("invalid").None?
    ensures CurrentData(JObj([("current", JObj([("dados", JObj([("TEM_INS", JStr("invalid"))]))]))]), "TEM_INS", parseFloat) ==
              Value(None)
  {
    CurrentDataReading([("TEM_INS", JStr("invalid"))], "TEM_INS", parseFloat);
  }
}
