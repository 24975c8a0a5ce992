/** The "tomorrow" mode of the main block (weather2mqtt.py): the daily
    section of the payload replaced by the readings of one date. */
module Tomorrow {
  import opened Results
  import opened Payload

  const TOMORROW_MODE: string := "tomorrow"
  const DAILY_KEY: string := "daily"
  const TOMORROW_KEY: string := "tomorrow"
  const DATE_KEY: string := "date"

  /** daily is a dict of dicts, each of which has an entry for the date. */
  ghost predicate HasDay(daily: Value, date: string) {
    daily.Object? && forall k | k in daily.entries ::
      daily.entries[k].Object? && date in daily.entries[k].entries
  }

  /** In "tomorrow" mode with a daily section, the payload gets "tomorrow":
      "date" with the date, plus every daily field's reading for that date
      (a field named "date" wins), and loses "daily"; every other key is
      unchanged. An error is raised exactly when some daily field has no
      entry for the date: an AttributeError from .items() when "daily" is
      not a dict, a KeyError when every daily field is a dict, and a
      TypeError when a field that is not a dict is subscripted. In any other
      mode, or without a daily section, the payload is unchanged. */
  method ExtractTomorrow(mode: Option<string>, result: map<string, Value>, tomorrowDate: string)
    returns (r: Result<map<string, Value>, Failure>)
    ensures mode != Some(TOMORROW_MODE) || DAILY_KEY !in result ==> r == Ok(result)
    ensures mode == Some(TOMORROW_MODE) && DAILY_KEY in result ==>
      (r.Ok? <==> HasDay(result[DAILY_KEY], tomorrowDate))
    ensures r.Err? ==> r.error == KeyError || r.error == NotAMapping
    ensures mode == Some(TOMORROW_MODE) && DAILY_KEY in result && !result[DAILY_KEY].Object? ==>
      r == Err(NotAMapping)
    ensures r.Err? && DAILY_KEY in result && result[DAILY_KEY].Object? ==>
      (forall k | k in result[DAILY_KEY].entries :: result[DAILY_KEY].entries[k].Object?) ==>
      r.error == KeyError
    ensures r.Ok? && mode == Some(TOMORROW_MODE) && DAILY_KEY in result ==>
      var daily := result[DAILY_KEY].entries;
      && r.value.Keys == result.Keys - {DAILY_KEY} + {TOMORROW_KEY}
      && (forall k | k in result && k != DAILY_KEY && k != TOMORROW_KEY :: r.value[k] == result[k])
      && r.value[TOMORROW_KEY].Object?
      && r.value[TOMORROW_KEY].entries.Keys == daily.Keys + {DATE_KEY}
      && (DATE_KEY !in daily ==> r.value[TOMORROW_KEY].entries[DATE_KEY] == Text(tomorrowDate))
      && forall k | k in daily :: r.value[TOMORROW_KEY].entries[k] == daily[k].entries[tomorrowDate]
  {
    if mode != Some(TOMORROW_MODE) || DAILY_KEY !in result {
      return Ok(result);
    }
    var daily := result[DAILY_KEY];
    if !daily.Object? {
      // daily.items() on a non-dict
      return Err(NotAMapping);
    }
    var tomorrowData: map<string, Value> := map[DATE_KEY := Text(tomorrowDate)];
    var todo := daily.entries.Keys;
    while todo != {}
      invariant todo <= daily.entries.Keys
      invariant tomorrowData.Keys == daily.entries.Keys - todo + {DATE_KEY}
      invariant DATE_KEY !in daily.entries.Keys - todo ==> tomorrowData[DATE_KEY] == Text(tomorrowDate)
      invariant forall k | k in daily.entries && k !in todo ::
        daily.entries[k].Object? && tomorrowDate in daily.entries[k].entries
        && tomorrowData[k] == daily.entries[k].entries[tomorrowDate]
      decreases todo
    {
      var key :| key in todo;
      var series := daily.entries[key];
      if !series.Object? {
        return Err(NotAMapping);
      }
      if tomorrowDate !in series.entries {
        return Err(KeyError);
      }
      tomorrowData := tomorrowData[key := series.entries[tomorrowDate]];
      todo := todo - {key};
    }
    r := Ok(result[TOMORROW_KEY := Object(tomorrowData)] - {DAILY_KEY});
  }

  /** The daily dictionary built by parse_daily_weather, as stored in the payload. */
  function DailyValue(parsed: map<string, map<string, Value>>): Value {
    Object(map k | k in parsed :: Object(parsed[k]))
  }

  /** When every daily field is keyed by the same forecast dates (as
      parse_daily_weather guarantees), extraction succeeds exactly when the
      date is one of them, or there are no daily fields at all. */
  lemma DailyHasDayIffForecastDate(parsed: map<string, map<string, Value>>, dates: seq<string>, date: string)
    requires forall k | k in parsed :: parsed[k].Keys == (set t | t in dates)
    ensures HasDay(DailyValue(parsed), date) <==> parsed == map[] || date in dates
  {
    if parsed != map[] && HasDay(DailyValue(parsed), date) {
      var k :| k in parsed;
      assert date in DailyValue(parsed).entries[k].entries;
    }
  }
}
