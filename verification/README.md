# weather2mqtt: weather-code translation and payload reshaping, in Dafny

weather2mqtt fetches current and daily forecasts from the Open-Meteo API and
publishes them as one JSON payload on an MQTT topic. This project models the
parts of it that compute something:

- the weather-code library: a constant table from 32 Open-Meteo weather codes
  to English text, and `translate_weather_code`, which returns the text for a
  key and `"Unknown weather code"` for any hashable argument equal to no key
  (`WeatherCodes`);
- how a reading from the API is used as a key of that table. Python's
  `dict.get` finds the integer key `k` for the float `k.0`, and finds nothing
  for a fractional value or NaN (`Payload.CodeOf`, `Payload.TranslateReading`);
- the severity check of `initialize_logger`, the start-up choice between DEBUG
  and INFO, and the normalisation of `WEATHER_CODE_LANGUAGE` to its first two
  characters, lower-cased (`Settings`);
- `parse_current_weather`: "time", one entry per requested field, and
  "weather_code_text" exactly when "weather_code" was requested
  (`CurrentWeather`);
- `parse_daily_weather`: the list of forecast dates, one date-keyed
  dictionary per field, and "weather_code_text" over the same dates
  (`DailyWeather`);
- the "tomorrow" mode of the main block, which replaces "daily" with the
  readings of one date (`Tomorrow`).

The parsers build their dictionaries step by step in loops. They are methods
with loops and invariants, proved against declarative descriptions of the
result. Python's rule that a repeated key keeps its last assignment is stated
with `Payload.LastAt` and `Payload.LastIndex`. `Payload.IsSeries` describes a
dictionary filled by `m[keys[j]] = values[j]`.

The script calls `WeatherCodes(language=...).translate(code=...)`. The weather-code
library has no `WeatherCodes` class, no per-language tables and no fallback.
It has only the English table and `translate_weather_code`. So each parser takes
its translator as a parameter `translate`. The library's behaviour is
`Payload.TranslateReading`, which is `translate_weather_code` applied to a
reading. The normalised language is modelled as the script computes it, but
no table depends on it.

Inputs from outside the program are parameters:

- the API sections are values: `CurrentData` (the time as an ISO string and
  one reading per variable) and `DailyData` (start, end and step as integer
  seconds, and one sequence of readings per variable);
- the rendering of a forecast instant as a `%Y-%m-%d` date is a function
  parameter `format`: strftime of the instant at the start's UTC offset;
- tomorrow's date and the `MODE`, `DEBUG` and `WEATHER_CODE_LANGUAGE`
  environment variables are arguments (`None` when unset).

Where the tests disagree with the code, the model follows the code. The
library has only the English table. So the German texts expected at
test/test_weather_codes.py lines 33-35 and 62 are not modelled, and a code
passed with language "de" translates like any other. The test at
test/test_weather_codes.py:61 expects "Overcast" for 4.0. The table has no
code 4, so `Payload.TestedFloatCodesUnknown` proves that 4.0 gives the sentinel.

## Model

| member | source | states |
|---|---|---|
| `WeatherCodes.Translate` | src/app/bin/lib/weather_codes/__init__.py:57-63 | A table key gives its stored text. The result is the sentinel exactly when the input is not an integer key. The result is always the sentinel or a table value, and never empty. |
| `WeatherCodes.KnownCodesAreTheKeys` | src/app/bin/lib/weather_codes/__init__.py:21-54 | The table's keys are exactly 0-3, 45, 48, 51-57 odd and 56, 61-67 odd and 66, 71-77 odd, 80-82, 85, 86, 95, 96 and 99-103. |
| `WeatherCodes.OutOfRangeIsUnknown` | src/app/bin/lib/weather_codes/__init__.py:21-63 | Every negative code and every code above 103 gives the sentinel. |
| `WeatherCodes.GapIsUnknown` | src/app/bin/lib/weather_codes/__init__.py:21-63 | A code in 0..103 outside the listed ranges gives the sentinel. |
| `WeatherCodes.NonIntegerIsUnknown` | src/app/bin/lib/weather_codes/__init__.py:63 | An input equal to no integer (a string, None, NaN) gives the sentinel. |
| `WeatherCodes.TestedDefaultCodes` | test/test_weather_codes.py:28-29 | 0 gives "Clear sky" and 1 gives "Mainly clear". |
| `WeatherCodes.TestedEnglishCode` | test/test_weather_codes.py:32 | 3 gives "Cloudy". |
| `WeatherCodes.TestedFallbackCode` | test/test_weather_codes.py:38 | 77 gives "Snow Grains". |
| `WeatherCodes.TestedInvalidCode` | test/test_weather_codes.py:42-44 | 199 gives the sentinel. |
| `WeatherCodes.TestedNegativeCodes` | test/test_weather_codes.py:48-50 | -1, -5 and -10 give the sentinel. |
| `WeatherCodes.TestedLargeCodes` | test/test_weather_codes.py:54-56 | 1000, 5000 and 9999 give the sentinel. |
| `Payload.CodeOf` | src/app/bin/lib/weather_codes/__init__.py:63 | A reading can match an integer key exactly when it is a whole-valued real. The key it matches is the integer equal to it. NaN and fractional readings match no key. |
| `Payload.TranslateReading` | src/app/bin/weather2mqtt.py:277-279 | Translating a reading gives the sentinel exactly when the reading matches no key of the table. |
| `Payload.WholeReadingIsItsInteger` | src/app/bin/lib/weather_codes/__init__.py:63 | The reading k.0 translates like the integer k. |
| `Payload.FractionalReadingIsUnknown` | src/app/bin/lib/weather_codes/__init__.py:63 | Fractional readings and NaN translate to the sentinel. |
| `Payload.TestedWholeFloatCode` | test/test_weather_codes.py:60 | The float 2.0 gives "Partly cloudy", the entry of the integer 2. |
| `Payload.TestedFloatCodesUnknown` | test/test_weather_codes.py:61-66 | 3.5, 7.2 and 12.9 give the sentinel, and so does 4.0, which is not a key of the table. |
| `Payload.SeriesOfDistinctKeys` | src/app/bin/weather2mqtt.py:318-319 | When the dates are distinct, date j of a series holds reading j. |
| `Strings.Lower` | src/app/bin/weather2mqtt.py:276 | Lower-casing keeps the length, lower-cases each character, and leaves no upper-case letter. |
| `Strings.Prefix` | src/app/bin/weather2mqtt.py:276 | `s[0:n]` is a prefix of `s` with length n, or all of `s` when `s` is shorter. |
| `Settings.InitializeLogger` | src/app/bin/weather2mqtt.py:82-84 | A ValueError is raised exactly when the severity is not a multiple of 10 from 10 to 50 (DEBUG to CRITICAL). Otherwise the logger gets that level. |
| `Settings.TestedSeverities` | test/test_weather2mqtt.py:34-41 | INFO (the default), DEBUG and FATAL (equal to CRITICAL) are accepted at their own level. NOTSET is refused. |
| `Settings.StartupSeverity` | src/app/bin/weather2mqtt.py:338-341 | The level is DEBUG exactly when DEBUG is set to "true" in any letter case. Otherwise it is INFO. |
| `Settings.StartupLoggerSucceeds` | src/app/bin/weather2mqtt.py:338-341 | The logger set up at start-up never raises. |
| `Settings.NormaliseLanguage` | src/app/bin/weather2mqtt.py:276 | The result has at most two characters and no upper-case letter. It is "en" when the setting is unset. Otherwise it is the setting's first min(2, length) characters, lower-cased. |
| `Settings.NormaliseIdempotent` | src/app/bin/weather2mqtt.py:323 | Normalising a normalised language changes nothing. |
| `Settings.NormaliseIgnoresCase` | src/app/bin/weather2mqtt.py:276 | A setting and its lower-cased form normalise alike. |
| `Settings.NormaliseExamples` | src/app/bin/weather2mqtt.py:276 | "DE" gives "de", "English" gives "en", "e" gives "e", and "" gives "". |
| `CurrentWeather.ReadingsWithTime` | src/app/bin/weather2mqtt.py:266-272 | Without "weather_code" among the fields, the time entry plus the readings is the full parsed result. |
| `CurrentWeather.ReadingsWithCodeText` | src/app/bin/weather2mqtt.py:274-279 | With "weather_code" among the fields, adding its translation gives the full parsed result. |
| `CurrentWeather.ParseCurrentWeather` | src/app/bin/weather2mqtt.py:262-283 | A missing section raises. Otherwise the keys are exactly "time", the fields, and "weather_code_text" when "weather_code" was requested. Each field holds the reading of its last position. "time" holds the time unless a field overwrites it. "weather_code_text" holds the translation of the "weather_code" reading. |
| `DailyWeather.DayCount` | src/app/bin/weather2mqtt.py:301-308 | The number of dates is the number of whole days from start to end, or 0 when end is before start. |
| `DailyWeather.IntervalRange` | src/app/bin/weather2mqtt.py:307-310 | The list has exactly delta.days dates. Date j is the rendering of start + j·interval. |
| `DailyWeather.FieldSeries` | src/app/bin/weather2mqtt.py:317-319 | The series is keyed by exactly the dates. Each date holds the reading at its last position. |
| `DailyWeather.CodeTexts` | src/app/bin/weather2mqtt.py:322-326 | The texts have exactly the codes' dates. Each holds the translation of that date's code. |
| `DailyWeather.SeriesStep` | src/app/bin/weather2mqtt.py:314-319 | Assigning a field its series keeps every earlier field whose last assignment came before it. |
| `DailyWeather.ParseDailyWeather` | src/app/bin/weather2mqtt.py:295-329 | A missing section raises. An IndexError is raised exactly when there are more fields than variables and at least one date. Otherwise the keys are exactly the fields, plus "weather_code_text" when "weather_code" was requested. Field i holds the series of variable i. "weather_code_text" has the same dates as "weather_code", each holding its translation. Every entry is keyed by the forecast dates. |
| `Tomorrow.ExtractTomorrow` | src/app/bin/weather2mqtt.py:356-368 | Outside "tomorrow" mode, or without "daily", nothing changes. Otherwise the extraction fails exactly when some daily field has no entry for the date. A "daily" that is not a dictionary gives an AttributeError at `.items()`. When every daily field is a dictionary, the failure is a KeyError. Subscripting a daily field that is not a dictionary gives a TypeError. Both non-dictionary errors are `NotAMapping`. On success "tomorrow" holds "date" plus every daily field's reading for the date, "daily" is removed, and every other key is unchanged. |
| `Tomorrow.DailyHasDayIffForecastDate` | src/app/bin/weather2mqtt.py:363-364 | If every daily field is keyed by the forecast dates, extraction succeeds exactly when the date is one of them or there are no fields. |

## Left out

- MQTT client construction, TLS, credentials, connect, publish and disconnect (weather2mqtt.py:136-203, 376-394): network plumbing over a third-party library.
- The HTTP request, cache directory, cached and retrying sessions, and decoding of the response (weather2mqtt.py:206-250): I/O and foreign calls. The response sections are inputs. Assembling them into one result (lines 244-247) is left out with the request.
- `load_config_file` and `__makeAbsolutePath` (weather2mqtt.py:45-69, 98-133): file-system and environment I/O, and `float()` parsing.
- The logger's handler and formatter set-up (weather2mqtt.py:86-95) and all log messages, including the warning when there is no daily section: side effects on a global library object.
- Date and time arithmetic: `fromtimestamp`, `isoformat`, `strftime`, `datetime.now()` and time zones (weather2mqtt.py:268, 301-309, 359, 371). Timestamps are integer seconds, the rendering of a date is a parameter, and tomorrow's date is an argument.
- The "message_timestamp" entry (weather2mqtt.py:371): it depends only on the clock.
- The `WeatherCodes` class, its per-language tables and its fallback. They are imported at weather2mqtt.py:29 but are not in the weather-code library, whose only operation is `translate_weather_code`. The parsers take the translator as a parameter, and the normalised language selects nothing.
- Strings.Lower: lower-cases ASCII letters only. Python's `str.lower` also maps non-ASCII letters, and some of them to several characters. `Settings.NormaliseLanguage`'s bound of two characters and `Settings.NormaliseIgnoresCase` rest on that: in Python `"İT"[0:2].lower()` has three code points, and lower-casing before the slice can change the result.
- DailyWeather.IntervalRange: pytz keeps the start's tzinfo on `start + i * interval` without normalising, so each date is rendered at the start's UTC offset, not at the zone's offset for that instant. Across a daylight-saving change a date can therefore differ from the local date. The model leaves the rendering to `format` and does not capture which offset is used.
- Floating point is modelled by `real` plus NaN. Infinities, float rounding, and the `float32` storage of readings are not modelled.
- Python dictionaries keep insertion order, and JSON serialisation follows it. Maps here are unordered, so the order of keys in the payload is not modelled.
- Tomorrow.ExtractTomorrow: when a daily field that is not a dictionary and a dictionary field that lacks the date are both present, Python raises for whichever comes first in insertion order. In that mixed case the model says only that the error is a KeyError or a TypeError. A non-dictionary "daily" always gives the AttributeError, and all-dictionary fields always give the KeyError. `NotAMapping` stands for both the AttributeError and the TypeError.
- `CurrentWeather.ParseCurrentWeather` requires at least one reading per requested field. The flat-buffer accessor `Variables(i)` does no bounds check, so the code relies on the API returning one variable per field. `DailyWeather.ParseDailyWeather` likewise requires every variable to have a reading for every date. The daily parser's Python list of variables is bounds-checked, and that IndexError is modelled.
- workfiles/weatherForecast.py: a standalone experiment that the script does not import.
- WeatherCodes.Translate: an unhashable argument (a list, dict or set) makes `dict.get` raise a TypeError, which is not modelled. The script only passes float readings.
