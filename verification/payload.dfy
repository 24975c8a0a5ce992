/**
  The values the script puts into its payload dictionaries, and the rules
  of Python dict assignment the reshaping code relies on.
 */
module Payload {
  import opened WeatherCodes

  /** A floating-point reading from the API: a finite value or NaN. */
  datatype Number = Real(x: real) | NaN

  /** A JSON-like payload value. */
  datatype Value =
    | Num(n: Number)
    | Text(s: string)
    | Object(entries: map<string, Value>)

  const TIME_KEY: string := "time"
  const WEATHER_CODE_KEY: string := "weather_code"
  const WEATHER_CODE_TEXT_KEY: string := "weather_code_text"

  /** How a reading is looked up in the integer-keyed code table: Python's
      dict.get finds the key k for the float k.0 (equal values hash alike),
      and finds nothing for a fractional value or NaN. */
  function CodeOf(n: Number): (c: Code)
    ensures c.Int? <==> n.Real? && n.x.Floor as real == n.x
    ensures c.Int? ==> n == Real(c.value as real)
  {
    match n
    case Real(x) => if x.Floor as real == x then Int(x.Floor) else Other
    case NaN => Other
  }

  /** translate_weather_code applied to a reading, as the parsers apply it. */
  function TranslateReading(n: Number): (r: string)
    ensures r == UNKNOWN <==> !(CodeOf(n).Int? && CodeOf(n).value in TABLE)
  {
    Translate(CodeOf(n))
  }

  /** A whole-valued reading translates like the integer it equals. */
  lemma WholeReadingIsItsInteger(k: int)
    ensures TranslateReading(Real(k as real)) == Translate(Int(k))
  {
  }

  /** Fractional readings and NaN translate to the sentinel. */
  lemma FractionalReadingIsUnknown(x: real)
    requires x.Floor as real != x
    ensures TranslateReading(Real(x)) == UNKNOWN
    ensures TranslateReading(NaN) == UNKNOWN
  {
  }

  /** The whole-valued float 2.0 finds the entry of the integer 2. */
  lemma TestedWholeFloatCode()
    ensures TranslateReading(Real(2.0)) == "Partly cloudy"
  {
    WholeReadingIsItsInteger(2);
  }

  /** Fractional floats and 4.0 (a code the table lacks) give the sentinel. */
  lemma TestedFloatCodesUnknown()
    ensures TranslateReading(Real(3.5)) == UNKNOWN
    ensures TranslateReading(Real(7.2)) == UNKNOWN
    ensures TranslateReading(Real(12.9)) == UNKNOWN
    ensures TranslateReading(Real(4.0)) == UNKNOWN
  {
    FractionalReadingIsUnknown(3.5);
    FractionalReadingIsUnknown(7.2);
    FractionalReadingIsUnknown(12.9);
    WholeReadingIsItsInteger(4);
    GapIsUnknown(4);
  }

  /** In a loop that assigns to s[0], ..., s[n-1] in turn, the assignment to
      s[j] is the last one to that key. */
  ghost predicate LastAt<T>(s: seq<T>, j: int, n: int) {
    0 <= j < n <= |s| && forall k :: j < k < n ==> s[k] != s[j]
  }

  /** The position of the last occurrence of x in s. */
  function LastIndex<T(==)>(s: seq<T>, x: T): (k: nat)
    requires x in s
    ensures k < |s| && s[k] == x
    ensures LastAt(s, k, |s|)
  {
    if s[|s| - 1] == x then |s| - 1 else LastIndex(s[..|s| - 1], x)
  }

  /** m is the dictionary that `for j in range(len(keys)): m[keys[j]] = values[j]`
      builds from an empty one: keyed by the keys, each key holding the value
      of its last position. The daily series are such dictionaries keyed by
      dates, the readings of parse_current_weather one keyed by field names. */
  ghost predicate IsSeries(m: map<string, Value>, keys: seq<string>, values: seq<Number>) {
    && |keys| <= |values|
    && m.Keys == (set t | t in keys)
    && forall j | 0 <= j < |keys| && LastAt(keys, j, |keys|) :: m[keys[j]] == Num(values[j])
  }

  /** m is what the first n steps of that loop leave: the keys among
      keys[..n], each holding the value of its last position so far. */
  ghost predicate SeriesPrefix(m: map<string, Value>, keys: seq<string>, values: seq<Number>, n: int) {
    && 0 <= n <= |keys| <= |values|
    && m.Keys == (set t | t in keys[..n])
    && forall j | LastAt(keys, j, n) :: m[keys[j]] == Num(values[j])
  }

  /** One step of the loop: assigning values[n] to keys[n] extends the prefix. */
  lemma SeriesPrefixStep(m: map<string, Value>, keys: seq<string>, values: seq<Number>, n: int)
    requires SeriesPrefix(m, keys, values, n) && n < |keys|
    ensures SeriesPrefix(m[keys[n] := Num(values[n])], keys, values, n + 1)
  {
    assert keys[..n + 1] == keys[..n] + [keys[n]];
    forall j | LastAt(keys, j, n + 1)
      ensures m[keys[n] := Num(values[n])][keys[j]] == Num(values[j])
    {
      if j < n {
        assert LastAt(keys, j, n);
      }
    }
  }

  /** The whole loop builds the series. */
  lemma SeriesPrefixComplete(m: map<string, Value>, keys: seq<string>, values: seq<Number>)
    requires SeriesPrefix(m, keys, values, |keys|)
    ensures IsSeries(m, keys, values)
  {
    assert keys[..|keys|] == keys;
  }

  /** Every value of a series is a reading: the one at its key's last position. */
  lemma SeriesValues(m: map<string, Value>, keys: seq<string>, values: seq<Number>, t: string)
    requires IsSeries(m, keys, values) && t in m
    ensures t in keys && m[t] == Num(values[LastIndex(keys, t)])
  {
    var j := LastIndex(keys, t);
    assert LastAt(keys, j, |keys|);
  }

  /** With distinct keys, key j holds value j. */
  lemma SeriesOfDistinctKeys(m: map<string, Value>, keys: seq<string>, values: seq<Number>, j: int)
    requires IsSeries(m, keys, values) && 0 <= j < |keys|
    requires forall a, b | 0 <= a < b < |keys| :: keys[a] != keys[b]
    ensures m[keys[j]] == Num(values[j])
  {
    assert LastAt(keys, j, |keys|);
  }
}
