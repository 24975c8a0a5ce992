/**
  The translation table from Open-Meteo weather codes to English text, and
  the total lookup over it (lib/weather_codes/__init__.py).
 */
module WeatherCodes {

  /** The argument of a lookup: an integer code (or a value equal to one,
      such as 2.0 or True), or a hashable value equal to no integer (a
      string, None, NaN, a fractional float). */
  datatype Code = Int(value: int) | Other

  /** The text returned for every code the table does not hold. */
  const UNKNOWN: string := "Unknown weather code"

  /** The table: 32 codes, each with its description. */
  const TABLE: map<int, string> := map[
    0 := "Clear sky",
    1 := "Mainly clear",
    2 := "Partly cloudy",
    3 := "Cloudy",
    45 := "Fog",
    48 := "Freezing Fog and depositing rime fog",
    51 := "Drizzle: Light intensity",
    53 := "Drizzle: Moderate intensity",
    55 := "Drizzle: Dense intensity",
    56 := "Freezing Drizzle: Light intensity",
    57 := "Freezing Drizzle: Dense intensity",
    61 := "Rain: Slight intensity",
    63 := "Rain: Moderate intensity",
    65 := "Rain: Heavy intensity",
    66 := "Freezing Rain: Light intensity",
    67 := "Freezing Rain: Heavy intensity",
    71 := "Snow fall: Slight intensity",
    73 := "Snow fall: Moderate intensity",
    75 := "Snow fall: Heavy intensity",
    77 := "Snow Grains",
    80 := "Rain showers: Slight intensity",
    81 := "Rain showers: Moderate intensity",
    82 := "Rain showers: Heavy intensity",
    85 := "Snow showers: Slight intensity",
    86 := "Snow showers: Heavy intensity",
    95 := "Thunderstorm: Slight or moderate",
    96 := "Thunderstorm with slight hail",
    99 := "Thunderstorm with hail",
    100 := "is not used",
    101 := "Tornado",
    102 := "Tropical storm",
    103 := "Hurricane"
  ]

  /** The codes of the table, described by ranges rather than listed. */
  predicate IsKnownCode(c: int) {
    || 0 <= c <= 3
    || c == 45 || c == 48
    || (51 <= c <= 57 && (c % 2 == 1 || c == 56))
    || (61 <= c <= 67 && (c % 2 == 1 || c == 66))
    || (71 <= c <= 77 && c % 2 == 1)
    || 80 <= c <= 82
    || c == 85 || c == 86
    || c == 95 || c == 96
    || 99 <= c <= 103
  }

  /** translate_weather_code: the stored text for a key of the table, the
      sentinel for any other hashable argument; never "". */
  function Translate(code: Code): (r: string)
    ensures code.Int? && code.value in TABLE ==> r == TABLE[code.value]
    ensures r == UNKNOWN <==> !(code.Int? && code.value in TABLE)
    ensures r == UNKNOWN || r in TABLE.Values
    ensures |r| > 0
  {
    match code
    case Int(c) => if c in TABLE then TABLE[c] else UNKNOWN
    case Other => UNKNOWN
  }

  /** The key set of the table is exactly the ranges of IsKnownCode. */
  lemma KnownCodesAreTheKeys(c: int)
    ensures c in TABLE <==> IsKnownCode(c)
  {
  }

  /** Every key lies in 0..103, so codes outside that range are unknown. */
  lemma OutOfRangeIsUnknown(c: int)
    requires c < 0 || c > 103
    ensures Translate(Int(c)) == UNKNOWN
  {
    KnownCodesAreTheKeys(c);
  }

  /** A code inside 0..103 that is not one of the listed ranges is unknown. */
  lemma GapIsUnknown(c: int)
    requires 0 <= c <= 103 && !IsKnownCode(c)
    ensures Translate(Int(c)) == UNKNOWN
  {
    KnownCodesAreTheKeys(c);
  }

  /** Inputs that are not integers are unknown. */
  lemma NonIntegerIsUnknown()
    ensures Translate(Other) == UNKNOWN
  {
  }

  /** The known codes the library's tests look up with the default language. */
  lemma TestedDefaultCodes()
    ensures Translate(Int(0)) == "Clear sky"
    ensures Translate(Int(1)) == "Mainly clear"
  {
  }

  /** The known code the library's tests look up in the English table. */
  lemma TestedEnglishCode()
    ensures Translate(Int(3)) == "Cloudy"
  {
  }

  /** The code the library's tests look up through the fallback from an
      unsupported language to the English table. */
  lemma TestedFallbackCode()
    ensures Translate(Int(77)) == "Snow Grains"
  {
  }

  /** The invalid code the library's tests look up. */
  lemma TestedInvalidCode()
    ensures Translate(Int(199)) == UNKNOWN
  {
    OutOfRangeIsUnknown(199);
  }

  /** The negative codes the library's tests look up. */
  lemma TestedNegativeCodes()
    ensures Translate(Int(-1)) == UNKNOWN
    ensures Translate(Int(-5)) == UNKNOWN
    ensures Translate(Int(-10)) == UNKNOWN
  {
    OutOfRangeIsUnknown(-1);
    OutOfRangeIsUnknown(-5);
    OutOfRangeIsUnknown(-10);
  }

  /** The excessively large codes the library's tests look up. */
  lemma TestedLargeCodes()
    ensures Translate(Int(1000)) == UNKNOWN
    ensures Translate(Int(5000)) == UNKNOWN
    ensures Translate(Int(9999)) == UNKNOWN
  {
    OutOfRangeIsUnknown(1000);
    OutOfRangeIsUnknown(5000);
    OutOfRangeIsUnknown(9999);
  }
}
