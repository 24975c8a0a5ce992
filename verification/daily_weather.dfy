/** parse_daily_weather (weather2mqtt.py): the daily section of the API
    response reshaped into one date-keyed dictionary per field. */
module DailyWeather {
  import opened Results
  import opened Payload

  /** The daily section of the response: start and end as Unix timestamps,
      the step in seconds, and one sequence of readings per requested
      variable, in request order. */
  datatype DailyData = DailyData(time: int, timeEnd: int, interval: int, variables: seq<seq<Number>>)

  const SECONDS_PER_DAY: int := 86400

  /** range((end - start).days): timedelta.days rounds down, and a range
      with a negative bound is empty. */
  function DayCount(start: int, end: int): (n: nat)
    ensures n * SECONDS_PER_DAY <= (if end < start then 0 else end - start) < (n + 1) * SECONDS_PER_DAY
  {
    if end - start < 0 then 0 else (end - start) / SECONDS_PER_DAY
  }

  /** The forecast dates: entry j is the date of start + j * interval, as
      rendered by `format`: strftime("%Y-%m-%d") of that instant at the
      start's UTC offset, which the sum keeps. */
  function ForecastDates(d: DailyData, format: int -> string): seq<string> {
    seq(DayCount(d.time, d.timeEnd), j => format(d.time + j * d.interval))
  }

  /** The loop that builds interval_range: exactly delta.days dates, the
      j-th being the date of start + j * interval. */
  method IntervalRange(d: DailyData, format: int -> string) returns (dates: seq<string>)
    ensures |dates| == DayCount(d.time, d.timeEnd)
    ensures forall j :: 0 <= j < |dates| ==> dates[j] == format(d.time + j * d.interval)
    ensures dates == ForecastDates(d, format)
  {
    dates := [];
    var n := DayCount(d.time, d.timeEnd);
    var i := 0;
    while i < n
      invariant 0 <= i <= n
      invariant |dates| == i
      invariant forall j :: 0 <= j < i ==> dates[j] == format(d.time + j * d.interval)
    {
      dates := dates + [format(d.time + i * d.interval)];
      i := i + 1;
    }
  }

  /** The inner loop: { dates[j]: values[j] } built one date at a time. */
  method FieldSeries(dates: seq<string>, values: seq<Number>) returns (series: map<string, Value>)
    requires |dates| <= |values|
    ensures IsSeries(series, dates, values)
  {
    series := map[];
    var j := 0;
    while j < |dates|
      invariant SeriesPrefix(series, dates, values, j)
    {
      SeriesPrefixStep(series, dates, values, j);
      series := series[dates[j] := Num(values[j])];
      j := j + 1;
    }
    SeriesPrefixComplete(series, dates, values);
  }

  /** The loop that fills weather_code_text: the same dates as the codes,
      each holding the translation of that date's code. */
  method CodeTexts(codes: map<string, Value>, translate: Number -> string) returns (texts: map<string, Value>)
    requires forall t | t in codes :: codes[t].Num?
    ensures texts.Keys == codes.Keys
    ensures forall t | t in codes :: texts[t] == Text(translate(codes[t].n))
  {
    texts := map[];
    var todo := codes.Keys;
    while todo != {}
      invariant todo <= codes.Keys
      invariant texts.Keys == codes.Keys - todo
      invariant forall t | t in texts :: texts[t] == Text(translate(codes[t].n))
      decreases todo
    {
      var t :| t in todo;
      texts := texts[t := Text(translate(codes[t].n))];
      todo := todo - {t};
    }
  }

  /** After i steps of the field loop, each field whose last assignment so far
      is step j holds the series of variable j; with no forecast dates it holds
      an empty dictionary even when there is no variable j. */
  ghost predicate SeriesUpTo(parsed: map<string, map<string, Value>>, fields: seq<string>, i: int,
                             dates: seq<string>, variables: seq<seq<Number>>)
  {
    forall j | LastAt(fields, j, i) ::
      && fields[j] in parsed
      && (if j < |variables| then IsSeries(parsed[fields[j]], dates, variables[j])
          else dates == [] && parsed[fields[j]] == map[])
  }

  /** One step of the field loop keeps SeriesUpTo. */
  lemma SeriesStep(parsed: map<string, map<string, Value>>, fields: seq<string>, i: int,
                   dates: seq<string>, variables: seq<seq<Number>>, series: map<string, Value>)
    requires 0 <= i < |fields|
    requires SeriesUpTo(parsed, fields, i, dates, variables)
    requires if i < |variables| then IsSeries(series, dates, variables[i])
             else dates == [] && series == map[]
    ensures SeriesUpTo(parsed[fields[i] := series], fields, i + 1, dates, variables)
  {
    forall j | LastAt(fields, j, i + 1)
      ensures fields[j] in parsed[fields[i] := series]
      ensures if j < |variables| then IsSeries(parsed[fields[i] := series][fields[j]], dates, variables[j])
              else dates == [] && parsed[fields[i] := series][fields[j]] == map[]
    {
      if j < i {
        assert LastAt(fields, j, i);
      }
    }
  }

  /** After the field loop, every entry is keyed by exactly the dates. */
  lemma EntriesKeyedByDates(parsed: map<string, map<string, Value>>, fields: seq<string>,
                            dates: seq<string>, variables: seq<seq<Number>>)
    requires parsed.Keys == (set f | f in fields)
    requires SeriesUpTo(parsed, fields, |fields|, dates, variables)
    ensures forall k | k in parsed :: parsed[k].Keys == (set t | t in dates)
  {
    forall k | k in parsed
      ensures parsed[k].Keys == (set t | t in dates)
    {
      var j := LastIndex(fields, k);
      assert LastAt(fields, j, |fields|);
      assert dates == [] ==> (set t | t in dates) == {};
    }
  }

  /** After the field loop, the "weather_code" entry holds only readings. */
  lemma CodesAreReadings(parsed: map<string, map<string, Value>>, fields: seq<string>,
                         dates: seq<string>, variables: seq<seq<Number>>)
    requires WEATHER_CODE_KEY in parsed && WEATHER_CODE_KEY in fields
    requires SeriesUpTo(parsed, fields, |fields|, dates, variables)
    ensures forall t | t in parsed[WEATHER_CODE_KEY] :: parsed[WEATHER_CODE_KEY][t].Num?
  {
    var last := LastIndex(fields, WEATHER_CODE_KEY);
    assert LastAt(fields, last, |fields|);
    if last < |variables| {
      forall t | t in parsed[WEATHER_CODE_KEY]
        ensures parsed[WEATHER_CODE_KEY][t].Num?
      {
        SeriesValues(parsed[WEATHER_CODE_KEY], dates, variables[last], t);
      }
    }
  }

  /** Raises when the section is missing, and an IndexError when more fields
      are requested than the response has variables and there is at least
      one forecast date (the variables are only indexed inside the loop over
      the dates). Otherwise each field maps to the series of its variable
      over the forecast dates (a repeated field keeps its last series), and,
      exactly when "weather_code" was requested, "weather_code_text" maps the
      same dates to the texts of their codes. Every entry is keyed by the
      forecast dates. */
  method ParseDailyWeather(data: Option<DailyData>, fields: seq<string>, format: int -> string,
                           translate: Number -> string)
    returns (r: Result<map<string, map<string, Value>>, Failure>)
    requires data.Some? ==> forall i | 0 <= i < |data.value.variables| && i < |fields| ::
      |data.value.variables[i]| >= DayCount(data.value.time, data.value.timeEnd)
    ensures data.None? ==> r == Err(NoWeatherData)
    ensures data.Some? ==>
      (r.Err? <==> |fields| > |data.value.variables| && DayCount(data.value.time, data.value.timeEnd) > 0)
    ensures data.Some? && r.Err? ==> r.error == IndexError
    ensures r.Ok? ==>
      r.value.Keys == (set f | f in fields)
                      + (if WEATHER_CODE_KEY in fields then {WEATHER_CODE_TEXT_KEY} else {})
    ensures r.Ok? ==> forall i | LastAt(fields, i, |fields|) && i < |data.value.variables| ::
      !(fields[i] == WEATHER_CODE_TEXT_KEY && WEATHER_CODE_KEY in fields)
      ==> IsSeries(r.value[fields[i]], ForecastDates(data.value, format), data.value.variables[i])
    ensures r.Ok? && WEATHER_CODE_KEY in fields ==>
      var codes := r.value[WEATHER_CODE_KEY];
      && r.value[WEATHER_CODE_TEXT_KEY].Keys == codes.Keys
      && forall t | t in codes ::
           codes[t].Num? && r.value[WEATHER_CODE_TEXT_KEY][t] == Text(translate(codes[t].n))
    ensures r.Ok? ==> forall k | k in r.value ::
      r.value[k].Keys == (set t | t in ForecastDates(data.value, format))
  {
    if data.None? {
      return Err(NoWeatherData);
    }
    var d := data.value;
    var dates := IntervalRange(d, format);
    var parsed: map<string, map<string, Value>> := map[];
    var i := 0;
    while i < |fields|
      invariant 0 <= i <= |fields|
      invariant parsed.Keys == (set f | f in fields[..i])
      invariant dates != [] && i > 0 ==> i <= |d.variables|
      invariant SeriesUpTo(parsed, fields, i, dates, d.variables)
    {
      var series: map<string, Value>;
      if dates == [] {
        // the loop over the dates does not run, so no variable is read
        series := map[];
      } else if i >= |d.variables| {
        return Err(IndexError);
      } else {
        series := FieldSeries(dates, d.variables[i]);
      }
      assert fields[..i + 1] == fields[..i] + [fields[i]];
      SeriesStep(parsed, fields, i, dates, d.variables, series);
      parsed := parsed[fields[i] := series];
      i := i + 1;
    }
    assert fields[..i] == fields;
    EntriesKeyedByDates(parsed, fields, dates, d.variables);
    if WEATHER_CODE_KEY in parsed {
      CodesAreReadings(parsed, fields, dates, d.variables);
      var codes := parsed[WEATHER_CODE_KEY];
      var texts := CodeTexts(codes, translate);
      parsed := parsed[WEATHER_CODE_TEXT_KEY := texts];
    }
    r := Ok(parsed);
  }
}
