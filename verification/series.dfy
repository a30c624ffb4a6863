/**
 * Growth series of a ruleset: value i is base * (1 + growthRate)^i, rounded.
 * The frontend (frontend/src/game/ruleset-series.js) and the backend
 * (backend/ruleset_series.py) compute the same series; their "half_up"
 * rounding differs only below -0.5, which a valid configuration never reaches.
 */
module Series {
  import opened Wrappers
  import opened Decimal

  function Pow(x: real, n: nat): real {
    if n == 0 then 1.0 else x * Pow(x, n - 1)
  }

  /** Math.ceil / math.ceil on a finite number. */
  function Ceil(v: real): (r: int)
    ensures r as real - 1.0 < v <= r as real
  {
    -((-v).Floor)
  }

  /** Python's int() on a float: truncation toward zero. */
  function Truncate(v: real): (r: int)
    ensures v >= 0.0 ==> r as real <= v < r as real + 1.0
    ensures v < 0.0 ==> r as real - 1.0 < v <= r as real
  {
    if v >= 0.0 then v.Floor else Ceil(v)
  }

  predicate ValidMode(mode: string) {
    mode == "ceil" || mode == "floor" || mode == "half_up"
  }

  /** roundValue (JavaScript): half_up is Math.floor(value + 0.5). */
  function RoundJs(value: real, mode: string): (r: Result<int, string>)
    ensures r.Ok? <==> ValidMode(mode)
    ensures r.Err? ==> r.error == "[ruleset] unknown round mode: " + mode
    ensures mode == "floor" ==> r.Ok? && r.value as real <= value < r.value as real + 1.0
    ensures mode == "ceil" ==> r.Ok? && r.value as real - 1.0 < value <= r.value as real
    ensures mode == "half_up" ==> r.Ok? && r.value as real - 0.5 <= value < r.value as real + 0.5
  {
    if mode == "ceil" then Ok(Ceil(value))
    else if mode == "floor" then Ok(value.Floor)
    else if mode == "half_up" then Ok((value + 0.5).Floor)
    else Err("[ruleset] unknown round mode: " + mode)
  }

  /** round_value (Python): half_up is int(value + 0.5), which truncates toward zero. */
  function RoundPy(value: real, mode: string): (r: Result<int, string>)
    ensures r.Ok? <==> ValidMode(mode)
    ensures r.Err? ==> r.error == "unknown round mode: " + mode
    ensures mode == "floor" ==> r.Ok? && r.value as real <= value < r.value as real + 1.0
    ensures mode == "ceil" ==> r.Ok? && r.value as real - 1.0 < value <= r.value as real
    ensures mode == "half_up" && value >= -0.5 ==> r.Ok? && r.value as real - 0.5 <= value < r.value as real + 0.5
    ensures mode == "half_up" && value < -0.5 ==> r.Ok? && r.value as real - 1.5 < value <= r.value as real - 0.5
  {
    if mode == "ceil" then Ok(Ceil(value))
    else if mode == "floor" then Ok(value.Floor)
    else if mode == "half_up" then Ok(Truncate(value + 0.5))
    else Err("unknown round mode: " + mode)
  }

  /** Both sides round every value from -0.5 upward the same way. */
  lemma RoundingAgrees(value: real, mode: string)
    requires value >= -0.5
    ensures RoundJs(value, mode).Ok? == RoundPy(value, mode).Ok?
    ensures RoundJs(value, mode).Ok? ==> RoundJs(value, mode).value == RoundPy(value, mode).value
  {
  }

  /** Below -0.5 they part: -0.7 rounds to -1 in the browser and to 0 on the server. */
  lemma RoundingDiffersBelowHalf()
    ensures RoundJs(-0.7, "half_up") == Ok(-1)
    ensures RoundPy(-0.7, "half_up") == Ok(0)
  {
  }

  /** Every rounding mode is monotone. */
  lemma RoundMonotone(a: real, b: real, mode: string)
    requires a <= b && ValidMode(mode)
    ensures RoundJs(a, mode).value <= RoundJs(b, mode).value
  {
  }

  // ---------------------------------------------------------------------------
  // The frontend series

  /** The configuration object; an absent `round` falls back to half_up. */
  datatype SeriesConfig = SeriesConfig(base: real, growthRate: real, round: Option<string>)

  function ModeOf(c: SeriesConfig): string {
    if c.round.Some? then c.round.value else "half_up"
  }

  /** Term i of the series before rounding. */
  function Term(base: real, growthRate: real, i: nat): real {
    base * Pow(1.0 + growthRate, i)
  }

  /**
   * buildSeries: errors for a missing object, a negative base or growth rate,
   * a count that is not a positive integer, and an unknown rounding mode (met
   * while rounding the first term); otherwise `count` rounded terms.
   */
  method BuildSeries(config: Option<SeriesConfig>, count: real, name: string) returns (r: Result<seq<int>, string>)
    ensures config.None? ==> r == Err("[ruleset] " + name + " must be an object")
    ensures config.Some? && config.value.base < 0.0 ==> r == Err("[ruleset] " + name + ".base must be >= 0")
    ensures config.Some? && config.value.base >= 0.0 && config.value.growthRate < 0.0
            ==> r == Err("[ruleset] " + name + ".growthRate must be >= 0")
    ensures config.Some? && config.value.base >= 0.0 && config.value.growthRate >= 0.0
            && (count != count.Floor as real || count <= 0.0)
            ==> r == Err("[ruleset] " + name + " count must be > 0")
    ensures r.Ok? <==> (config.Some? && config.value.base >= 0.0 && config.value.growthRate >= 0.0
                        && count == count.Floor as real && count > 0.0 && ValidMode(ModeOf(config.value)))
    ensures r.Ok? ==> |r.value| == count.Floor
    ensures r.Ok? ==> forall i :: 0 <= i < |r.value| ==>
                        Ok(r.value[i]) == RoundJs(Term(config.value.base, config.value.growthRate, i), ModeOf(config.value))
  {
    if config.None? {
      return Err("[ruleset] " + name + " must be an object");
    }
    var c := config.value;
    if c.base < 0.0 {
      return Err("[ruleset] " + name + ".base must be >= 0");
    }
    if c.growthRate < 0.0 {
      return Err("[ruleset] " + name + ".growthRate must be >= 0");
    }
    if count != count.Floor as real || count <= 0.0 {
      return Err("[ruleset] " + name + " count must be > 0");
    }
    var mode := ModeOf(c);
    var n: nat := count.Floor;
    var series: seq<int> := [];
    var index := 0;
    while index < n
      invariant 0 <= index <= n
      invariant |series| == index
      invariant index > 0 ==> ValidMode(mode)
      invariant forall i :: 0 <= i < index ==> Ok(series[i]) == RoundJs(Term(c.base, c.growthRate, i), mode)
    {
      var v := RoundJs(Term(c.base, c.growthRate, index), mode);
      if v.Err? {
        return Err(v.error);
      }
      series := series + [v.value];
      index := index + 1;
    }
    return Ok(series);
  }

  // ---------------------------------------------------------------------------
  // Shape of the series

  lemma {:induction false} PowAtLeastOne(x: real, n: nat)
    requires x >= 1.0
    ensures Pow(x, n) >= 1.0
  {
    if n > 0 {
      PowAtLeastOne(x, n - 1);
      MulAtLeast(x, Pow(x, n - 1));
    }
  }

  lemma MulAtLeast(x: real, y: real)
    requires x >= 1.0 && y >= 0.0
    ensures x * y >= y
  {
  }

  lemma MulMonotone(b: real, y: real, z: real)
    requires b >= 0.0 && y <= z
    ensures b * y <= b * z
  {
  }

  /** The unrounded terms never decrease and start at the base. */
  lemma TermsGrow(base: real, growthRate: real, i: nat)
    requires base >= 0.0 && growthRate >= 0.0
    ensures Term(base, growthRate, 0) == base
    ensures base <= Term(base, growthRate, i) <= Term(base, growthRate, i + 1)
  {
    var x := 1.0 + growthRate;
    PowAtLeastOne(x, i);
    MulAtLeast(x, Pow(x, i));
    MulMonotone(base, 1.0, Pow(x, i));
    MulMonotone(base, Pow(x, i), Pow(x, i + 1));
  }

  /** A built series is non-negative, never decreases, and begins with the rounded base. */
  lemma SeriesShape(config: SeriesConfig, s: seq<int>)
    requires config.base >= 0.0 && config.growthRate >= 0.0 && ValidMode(ModeOf(config))
    requires forall i :: 0 <= i < |s| ==> Ok(s[i]) == RoundJs(Term(config.base, config.growthRate, i), ModeOf(config))
    ensures forall i :: 0 <= i < |s| ==> s[i] >= 0
    ensures forall i, j :: 0 <= i <= j < |s| ==> s[i] <= s[j]
    ensures |s| > 0 ==> Ok(s[0]) == RoundJs(config.base, ModeOf(config))
  {
    var mode := ModeOf(config);
    forall i | 0 <= i < |s|
      ensures s[i] >= 0
    {
      TermsGrow(config.base, config.growthRate, i);
      RoundMonotone(0.0, Term(config.base, config.growthRate, i), mode);
    }
    forall i, j | 0 <= i <= j < |s|
      ensures s[i] <= s[j]
    {
      TermsChain(config.base, config.growthRate, i, j);
      RoundMonotone(Term(config.base, config.growthRate, i), Term(config.base, config.growthRate, j), mode);
    }
    if |s| > 0 {
      TermsGrow(config.base, config.growthRate, 0);
    }
  }

  lemma {:induction false} TermsChain(base: real, growthRate: real, i: nat, j: nat)
    requires base >= 0.0 && growthRate >= 0.0 && i <= j
    ensures Term(base, growthRate, i) <= Term(base, growthRate, j)
    decreases j - i
  {
    if i < j {
      TermsGrow(base, growthRate, i);
      TermsChain(base, growthRate, i + 1, j);
    }
  }

  // ---------------------------------------------------------------------------
  // The backend series

  /** A value read from a JSON object; booleans count as numbers, as in Python. */
  datatype RawValue = Null | Num(n: real) | Text(s: string) | Other

  /** The keys of the raw growth configuration; None is an absent key. */
  datatype RawConfig = RawConfig(base: Option<RawValue>, growthRate: Option<RawValue>, round: Option<RawValue>)

  datatype GrowthConfig = GrowthConfig(base: real, growthRate: real, roundMode: string)

  /** float(): numbers pass, digit strings are read in decimal, anything else fails. */
  function ToFloat(v: RawValue): (r: Option<real>)
    ensures v.Num? ==> r == Some(v.n)
    ensures v.Null? || v.Other? ==> r.None?
    ensures v.Text? ==> (r.Some? <==> |v.s| > 0 && AllDigits(v.s))
  {
    match v
    case Num(n) => Some(n)
    case Text(s) => if |s| > 0 && AllDigits(s) then Some(Value(s) as real) else None
    case _ => None
  }

  function Missing(v: Option<RawValue>): bool {
    v.None? || v.value.Null?
  }

  /** The round setting, "half_up" when the key is absent. */
  function RawMode(raw: RawConfig): RawValue {
    if raw.round.Some? then raw.round.value else Text("half_up")
  }

  /**
   * parse_growth_config: errors for a non-object, a missing base or growth
   * rate, an invalid round mode, a non-numeric base or growth rate, and a
   * negative base or growth rate, in that order.
   */
  function ParseGrowthConfig(raw: Option<RawConfig>, name: string): (r: Result<GrowthConfig, string>)
    ensures raw.None? ==> r == Err(name + " must be an object")
    ensures raw.Some? && (Missing(raw.value.base) || Missing(raw.value.growthRate))
            ==> r == Err(name + " requires base and growthRate")
    ensures r.Ok? <==>
              && raw.Some? && !Missing(raw.value.base) && !Missing(raw.value.growthRate)
              && RawMode(raw.value).Text? && ValidMode(RawMode(raw.value).s)
              && ToFloat(raw.value.base.value).Some? && ToFloat(raw.value.growthRate.value).Some?
              && ToFloat(raw.value.base.value).value >= 0.0 && ToFloat(raw.value.growthRate.value).value >= 0.0
    ensures r.Ok? ==> r.value == GrowthConfig(ToFloat(raw.value.base.value).value,
                                              ToFloat(raw.value.growthRate.value).value, RawMode(raw.value).s)
  {
    if raw.None? then Err(name + " must be an object")
    else
      var c := raw.value;
      if Missing(c.base) || Missing(c.growthRate) then Err(name + " requires base and growthRate")
      else
        var mode := RawMode(c);
        if !mode.Text? || !ValidMode(mode.s) then
          Err(name + " round must be one of ['ceil', 'floor', 'half_up']")
        else
          var b := ToFloat(c.base.value);
          var g := ToFloat(c.growthRate.value);
          if b.None? || g.None? then Err(name + " base/growthRate must be numbers")
          else if b.value < 0.0 then Err(name + " base must be >= 0")
          else if g.value < 0.0 then Err(name + " growthRate must be >= 0")
          else Ok(GrowthConfig(b.value, g.value, mode.s))
  }

  /** int(): numbers truncate, digit strings are read in decimal, anything else fails. */
  function ToInt(v: RawValue): (r: Option<int>)
    ensures v.Num? ==> r == Some(Truncate(v.n))
    ensures v.Text? ==> (r.Some? <==> |v.s| > 0 && AllDigits(v.s))
    ensures v.Null? || v.Other? ==> r.None?
  {
    match v
    case Num(n) => Some(Truncate(n))
    case Text(s) => if |s| > 0 && AllDigits(s) then Some(Value(s)) else None
    case _ => None
  }

  /**
   * resolve_wave_count: both counts present, equal, integral and positive;
   * a float count is truncated.
   */
  function ResolveWaveCount(economy: Option<RawValue>, caps: Option<RawValue>): (r: Result<int, string>)
    ensures Missing(economy) || Missing(caps) ==> r == Err("ruleset requires economy.waveCount and caps.waveCount")
    ensures r.Ok? <==> (!Missing(economy) && !Missing(caps) && economy == caps
                        && ToInt(economy.value).Some? && ToInt(economy.value).value > 0)
    ensures r.Ok? ==> Some(r.value) == ToInt(economy.value) && r.value > 0
  {
    if Missing(economy) || Missing(caps) then Err("ruleset requires economy.waveCount and caps.waveCount")
    else if economy != caps then Err("ruleset waveCount mismatch between economy and caps")
    else
      var count := ToInt(economy.value);
      if count.None? then Err("ruleset waveCount must be an integer")
      else if count.value <= 0 then Err("ruleset waveCount must be > 0")
      else Ok(count.value)
  }

  /** generate_series: one rounded term per index of range(count). */
  function GenerateSeries(config: GrowthConfig, count: int): (s: seq<int>)
    requires ValidMode(config.roundMode)
    ensures |s| == if count > 0 then count else 0
    ensures forall i :: 0 <= i < |s| ==>
              Ok(s[i]) == RoundPy(Term(config.base, config.growthRate, i), config.roundMode)
    decreases if count > 0 then count else 0
  {
    if count <= 0 then []
    else GenerateSeries(config, count - 1)
         + [RoundPy(Term(config.base, config.growthRate, count - 1), config.roundMode).value]
  }

  /** build_series: parse, then generate; a non-positive count gives an empty list. */
  function BuildSeriesPy(raw: Option<RawConfig>, count: int, name: string): (r: Result<seq<int>, string>)
    ensures r.Ok? <==> ParseGrowthConfig(raw, name).Ok?
    ensures r.Ok? ==> |r.value| == (if count > 0 then count else 0)
  {
    var config := ParseGrowthConfig(raw, name);
    if config.Err? then Err(config.error) else Ok(GenerateSeries(config.value, count))
  }

  /**
   * For the same numbers, mode and a positive count, the server computes the
   * very series the browser computes.
   */
  lemma ServerSeriesMatchesBrowser(base: real, growthRate: real, mode: string, count: nat, s: seq<int>)
    requires base >= 0.0 && growthRate >= 0.0 && ValidMode(mode)
    requires |s| == count
    requires forall i :: 0 <= i < |s| ==> Ok(s[i]) == RoundJs(Term(base, growthRate, i), mode)
    ensures GenerateSeries(GrowthConfig(base, growthRate, mode), count) == s
  {
    var t := GenerateSeries(GrowthConfig(base, growthRate, mode), count);
    forall i | 0 <= i < count
      ensures t[i] == s[i]
    {
      TermsGrow(base, growthRate, i);
      RoundingAgrees(Term(base, growthRate, i), mode);
    }
  }
}
