/**
 * Integer configuration properties: a descriptor names one key of the job's
 * configuration set and carries its bounds and its default; against a
 * configuration set it says whether the key is blank, whether its value is
 * valid, and yields the value to use.
 */
module Configuration {
  import opened Wrappers
  import opened JavaLang

  /** The configuration set of a job: a raw string value per key. */
  type State = map<string, string>

  /** Descriptor of an integer property; the fourth constructor of the
      source, which takes every field. */
  datatype IntegerProperties = IntegerProperties(
    config: string,
    maxValue: int32,
    minValue: int32,
    defaultValue: int32)

  /** The one-argument constructor: bounds `[0, Integer.MAX_VALUE]`, default 0. */
  function OfKey(config: string): (p: IntegerProperties)
    ensures p.config == config && p.maxValue == INT_MAX && p.minValue == 0 && p.defaultValue == 0
  {
    IntegerProperties(config, INT_MAX, 0, 0)
  }

  /** The two-argument constructor: minimum and default 0. */
  function OfKeyMax(config: string, maxValue: int32): (p: IntegerProperties)
    ensures p.config == config && p.maxValue == maxValue && p.minValue == 0 && p.defaultValue == 0
  {
    IntegerProperties(config, maxValue, 0, 0)
  }

  /** The three-argument constructor: default 0, whatever the bounds. */
  function OfKeyMaxMin(config: string, maxValue: int32, minValue: int32): (p: IntegerProperties)
    ensures p.config == config && p.maxValue == maxValue && p.minValue == minValue && p.defaultValue == 0
  {
    IntegerProperties(config, maxValue, minValue, 0)
  }

  /** True when the key is missing or its value is empty or whitespace only. */
  function IsBlank(p: IntegerProperties, state: State): (blank: bool)
    ensures blank <==>
      || p.config !in state
      || forall i :: 0 <= i < |state[p.config]| ==> IsJavaWhitespace(state[p.config][i])
  {
    p.config !in state || StringIsBlank(state[p.config])
  }

  /** True when the value is blank, or parses as an `int` within the bounds;
      a value that does not parse is invalid, not an error. */
  function IsValid(p: IntegerProperties, state: State): (valid: bool)
    ensures IsBlank(p, state) ==> valid
    ensures !IsBlank(p, state) ==>
      (valid <==> (var v := ParseInt(state[p.config]); v.Some? && p.minValue <= v.value <= p.maxValue))
  {
    if !IsBlank(p, state) then
      match ParseInt(state[p.config])
      case Some(value) => value >= p.minValue && value <= p.maxValue
      case None => false
    else
      true
  }

  /** True when the value is present, parses, and lies within the bounds. */
  function IsValidNonblank(p: IntegerProperties, state: State): (ok: bool)
    ensures ok <==>
      && p.config in state
      && ParseInt(state[p.config]).Some?
      && p.minValue <= ParseInt(state[p.config]).value <= p.maxValue
  {
    !IsBlank(p, state) && IsValid(p, state)
  }

  /**
   * The value to use: the parsed value when it is present and valid (the
   * clamp to the bounds then leaves it as it is), the default otherwise.
   */
  function GetValidNonblankWithDefault(p: IntegerProperties, state: State): (r: int32)
    ensures IsValidNonblank(p, state) ==> ParseInt(state[p.config]) == Some(r)
    ensures !IsValidNonblank(p, state) ==> r == p.defaultValue
    ensures (p.minValue <= r <= p.maxValue) || r == p.defaultValue
  {
    if IsValidNonblank(p, state) then
      var value := ParseInt(state[p.config]).value;
      if value > p.maxValue then p.maxValue
      else if value < p.minValue then p.minValue
      else value
    else
      p.defaultValue
  }

  /** A value written in decimal within the bounds is read back as itself;
      one outside the bounds is replaced by the default. */
  lemma WrittenValueReadBack(p: IntegerProperties, state: State, n: int32)
    ensures var s := state[p.config := FormatInt(n)];
      && IsValidNonblank(p, s) == (p.minValue <= n <= p.maxValue)
      && GetValidNonblankWithDefault(p, s) == (if p.minValue <= n <= p.maxValue then n else p.defaultValue)
  {
    ParseFormatRoundTrip(n);
  }

  /** With the one-argument constructor every value read is non-negative,
      and a present value is valid exactly when it parses as a non-negative `int`. */
  lemma OneArgumentFormIsNonNegative(config: string, state: State)
    ensures GetValidNonblankWithDefault(OfKey(config), state) >= 0
    ensures config in state ==>
      (IsValidNonblank(OfKey(config), state) <==>
        ParseInt(state[config]).Some? && ParseInt(state[config]).value >= 0)
  {
  }

  /** Bounds [0, 100], default 0: the value "150" is invalid and reads as 0. */
  lemma OutOfRangeFallsBackToDefault(config: string)
    ensures var p, s := IntegerProperties(config, 100, 0, 0), map[config := "150"];
      && !IsValid(p, s)
      && GetValidNonblankWithDefault(p, s) == 0
  {
    assert FormatInt(150) == "150";
    WrittenValueReadBack(IntegerProperties(config, 100, 0, 0), map[], 150);
  }

  /** Nothing checks that the default lies within the bounds: with bounds
      [5, 10] and default 0, a missing key reads as 0, outside the bounds. */
  lemma DefaultNeedNotLieInBounds(config: string)
    ensures var p := IntegerProperties(config, 10, 5, 0);
      && IsBlank(p, map[])
      && GetValidNonblankWithDefault(p, map[]) == 0
      && !(p.minValue <= GetValidNonblankWithDefault(p, map[]) <= p.maxValue)
  {
  }
}
