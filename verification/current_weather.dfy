/** parse_current_weather (weather2mqtt.py): the current-conditions section
    of the API response reshaped into a dictionary. */
module CurrentWeather {
  import opened Results
  import opened Payload

  /** The current section of the response: its time, already rendered as an
      ISO string, and one reading per requested variable, in request order. */
  datatype CurrentData = CurrentData(time: string, values: seq<Number>)

  /** m is the parsed current weather: "time" with the time unless a field
      of that name overwrites it, each requested field with its variable's
      reading (a repeated field keeps its last reading), and, exactly when
      "weather_code" was requested, "weather_code_text" with the translation
      of the "weather_code" reading. */
  ghost predicate IsCurrentPayload(m: map<string, Value>, d: CurrentData, fields: seq<string>,
                                   translate: Number -> string) {
    && |fields| <= |d.values|
    && m.Keys == {TIME_KEY} + (set f | f in fields)
                 + (if WEATHER_CODE_KEY in fields then {WEATHER_CODE_TEXT_KEY} else {})
    && (TIME_KEY !in fields ==> m[TIME_KEY] == Text(d.time))
    && (forall i | LastAt(fields, i, |fields|) ::
          !(fields[i] == WEATHER_CODE_TEXT_KEY && WEATHER_CODE_KEY in fields)
          ==> m[fields[i]] == Num(d.values[i]))
    && (WEATHER_CODE_KEY in fields ==>
          m[WEATHER_CODE_TEXT_KEY] == Text(translate(d.values[LastIndex(fields, WEATHER_CODE_KEY)])))
  }

  /** The time entry followed by the readings is the parsed current weather
      when "weather_code" was not requested. */
  lemma ReadingsWithTime(readings: map<string, Value>, d: CurrentData, fields: seq<string>,
                         translate: Number -> string)
    requires IsSeries(readings, fields, d.values) && WEATHER_CODE_KEY !in fields
    ensures IsCurrentPayload(map[TIME_KEY := Text(d.time)] + readings, d, fields, translate)
  {
  }

  /** Adding the translated code to the time entry and the readings gives
      the parsed current weather when "weather_code" was requested. */
  lemma ReadingsWithCodeText(readings: map<string, Value>, d: CurrentData, fields: seq<string>,
                             translate: Number -> string)
    requires IsSeries(readings, fields, d.values) && WEATHER_CODE_KEY in fields
    ensures IsCurrentPayload(
      (map[TIME_KEY := Text(d.time)] + readings)[WEATHER_CODE_TEXT_KEY :=
        Text(translate(d.values[LastIndex(fields, WEATHER_CODE_KEY)]))], d, fields, translate)
  {
    var m := map[TIME_KEY := Text(d.time)] + readings;
    assert forall i | LastAt(fields, i, |fields|) :: m[fields[i]] == Num(d.values[i]);
  }

  /** parse_current_weather: raises when the section is missing, otherwise
      returns the parsed current weather. */
  method ParseCurrentWeather(data: Option<CurrentData>, fields: seq<string>, translate: Number -> string)
    returns (r: Result<map<string, Value>, Failure>)
    requires data.Some? ==> |fields| <= |data.value.values|
    ensures r.Err? <==> data.None?
    ensures r.Err? ==> r.error == NoWeatherData
    ensures r.Ok? ==> IsCurrentPayload(r.value, data.value, fields, translate)
  {
    if data.None? {
      return Err(NoWeatherData);
    }
    var d := data.value;
    var parsed: map<string, Value> := map[TIME_KEY := Text(d.time)];
    ghost var readings: map<string, Value> := map[];
    var i := 0;
    while i < |fields|
      invariant SeriesPrefix(readings, fields, d.values, i)
      invariant parsed == map[TIME_KEY := Text(d.time)] + readings
    {
      SeriesPrefixStep(readings, fields, d.values, i);
      readings := readings[fields[i] := Num(d.values[i])];
      parsed := parsed[fields[i] := Num(d.values[i])];
      i := i + 1;
    }
    SeriesPrefixComplete(readings, fields, d.values);
    if WEATHER_CODE_KEY in parsed {
      SeriesValues(readings, fields, d.values, WEATHER_CODE_KEY);
      ReadingsWithCodeText(readings, d, fields, translate);
      parsed := parsed[WEATHER_CODE_TEXT_KEY := Text(translate(parsed[WEATHER_CODE_KEY].n))];
    } else {
      ReadingsWithTime(readings, d, fields, translate);
    }
    r := Ok(parsed);
  }
}
