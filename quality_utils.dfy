/**
 * Scoring primitives of proof_of_quality/utils.py: lenient float parsing,
 * ordered-format date parsing, the recency weight and the clamped log score.
 */
module QualityUtils {
  import opened Wrappers
  import opened PyText
  import opened Config

  /** A naive datetime, as a count of microseconds from a fixed origin. */
  type Instant = int

  const MicrosPerDay: int := 86_400_000_000

  /** `(later - earlier).days`: whole days, rounded down as timedelta does. */
  function DaysBetween(earlier: Instant, later: Instant): (d: int)
    ensures d * MicrosPerDay <= later - earlier < (d + 1) * MicrosPerDay
    ensures earlier <= later ==> d >= 0
    ensures later < earlier ==> d < 0
  {
    (later - earlier) / MicrosPerDay
  }

  /**
   * The parts of the Python runtime the core calls without this model
   * describing their grammar or numerics: datetime.strptime(text, format),
   * datetime.fromisoformat, float() on a string, and numpy's log1p.
   * A parser returns None where Python raises ValueError.
   */
  datatype Runtime = Runtime(
    strptime: (string, string) -> Option<Instant>,
    fromIsoFormat: string -> Option<Instant>,
    toFloat: string -> Option<real>,
    log1p: real -> real)

  /** What the model requires of log1p throughout: zero at zero and positive on positives. */
  ghost predicate Log1pPositive(log1p: real -> real) {
    && log1p(0.0) == 0.0
    && (forall x :: 0.0 < x ==> 0.0 < log1p(x))
  }

  /** What the monotonicity lemmas require in addition: log1p never decreases on [0, oo). */
  ghost predicate Log1pMonotone(log1p: real -> real) {
    forall x, y :: 0.0 <= x <= y ==> log1p(x) <= log1p(y)
  }

  /** `max(0.0, min(1.0, x))`. */
  function Clamp01(x: real): (r: real)
    ensures 0.0 <= r <= 1.0
    ensures 0.0 <= x <= 1.0 ==> r == x
    ensures x <= 0.0 ==> r == 0.0
  {
    if x < 0.0 then 0.0 else if x > 1.0 then 1.0 else x
  }

  /** float(text), with a ValueError read as 0.0. */
  function FloatOrZero(rt: Runtime, text: string): real {
    match rt.toFloat(text)
    case Some(x) => x
    case None => 0.0
  }

  /** utils.parse_float: strips quote characters from both ends, then float(); failure gives 0.0. */
  function ParseFloat(rt: Runtime, s: string): (r: real)
    ensures rt.toFloat(Strip(s, Quotes)).None? ==> r == 0.0
    ensures rt.toFloat(Strip(s, Quotes)).Some? ==> r == rt.toFloat(Strip(s, Quotes)).value
  {
    FloatOrZero(rt, Strip(s, Quotes))
  }

  /** Only quote characters are removed before float(): a comma reaches float() unchanged. */
  lemma ParseFloatKeepsCommas(rt: Runtime, s: string, i: nat)
    requires i < |s| && s[i] == ','
    ensures ',' in Strip(s, Quotes)
    ensures ParseFloat(rt, s) == FloatOrZero(rt, Strip(s, Quotes))
  {
    var r := Strip(s, Quotes);
    StripInfix(s, Quotes);
    var lead := LeadCount(s, Quotes);
    assert lead <= i < lead + |r|;
    assert r[i - lead] == s[lead + (i - lead)];
  }

  /** The formats parse_date tries, in order. */
  const DateFormats: seq<string> := [
    "%Y-%m-%d",
    "%Y-%m-%d %H:%M:%S.%f",
    "%Y-%m-%dT%H:%M:%SZ",
    "%Y-%m-%dT%H:%M:%S.%fZ",
    "%Y-%m-%d %H:%M:%S"
  ]

  /** The result of the first format in `formats` that `text` matches. */
  function FirstMatch(rt: Runtime, text: string, formats: seq<string>): (r: Option<Instant>)
    ensures r.None? <==> forall i :: 0 <= i < |formats| ==> rt.strptime(text, formats[i]).None?
    ensures r.Some? ==> exists i :: 0 <= i < |formats| && rt.strptime(text, formats[i]) == r
                                    && forall j :: 0 <= j < i ==> rt.strptime(text, formats[j]).None?
  {
    if formats == [] then None
    else
      var d := rt.strptime(text, formats[0]);
      if d.Some? then d
      else
        var r := FirstMatch(rt, text, formats[1..]);
        assert forall i :: 0 < i < |formats| ==> formats[i] == formats[1..][i - 1];
        r
  }

  /** utils.parse_date: the first of the five formats that matches, else ValueError. */
  function ParseDate(rt: Runtime, text: string): (r: Result<Instant, Error>)
    ensures r.Failure? ==> r.error == MalformedDate(text)
  {
    match FirstMatch(rt, text, DateFormats)
    case Some(d) => Success(d)
    case None => Failure(MalformedDate(text))
  }

  /** parse_date fails iff no format matches, and otherwise answers with the first one that does. */
  lemma ParseDateFirstFormat(rt: Runtime, text: string)
    ensures ParseDate(rt, text).Failure? <==> forall i :: 0 <= i < |DateFormats| ==> rt.strptime(text, DateFormats[i]).None?
    ensures ParseDate(rt, text).Success? ==>
              exists i :: 0 <= i < |DateFormats| && rt.strptime(text, DateFormats[i]) == Some(ParseDate(rt, text).value)
                          && forall j :: 0 <= j < i ==> rt.strptime(text, DateFormats[j]).None?
  {
  }

  /** The age after which a contribution gets no weight: four years. */
  const MaxAgeDays: int := 365 * 4

  /**
   * utils.calculate_time_weight: (weight, age in days). No latest date gives
   * (0.0, 0); a latest date in the future gives (0.0, age); otherwise
   * 1 - log1p(age/365) / log1p(4), clamped to [0, 1].
   */
  function TimeWeight(rt: Runtime, now: Instant, latest: Option<Instant>): (r: (real, int))
    requires Log1pPositive(rt.log1p)
    ensures 0.0 <= r.0 <= 1.0
    ensures latest.None? ==> r == (0.0, 0)
    ensures latest.Some? ==> r.1 == DaysBetween(latest.value, now)
    ensures r.1 < 0 ==> r.0 == 0.0
  {
    match latest
    case None => (0.0, 0)
    case Some(l) =>
      var age := DaysBetween(l, now);
      if age < 0 then (0.0, age)
      else (Clamp01(1.0 - rt.log1p(age as real / 365.0) / rt.log1p(MaxAgeDays as real / 365.0)), age)
  }

  /** Activity less than a day old keeps its full weight. */
  lemma TimeWeightFresh(rt: Runtime, now: Instant, latest: Instant)
    requires Log1pPositive(rt.log1p)
    requires DaysBetween(latest, now) == 0
    ensures TimeWeight(rt, now, Some(latest)) == (1.0, 0)
  {
    assert rt.log1p(0 as real / 365.0) == 0.0;
  }

  /** Activity four years old or older gets weight 0. */
  lemma TimeWeightExpired(rt: Runtime, now: Instant, latest: Instant)
    requires Log1pPositive(rt.log1p) && Log1pMonotone(rt.log1p)
    requires DaysBetween(latest, now) >= MaxAgeDays
    ensures TimeWeight(rt, now, Some(latest)).0 == 0.0
  {
    var age := DaysBetween(latest, now);
    var top := rt.log1p(age as real / 365.0);
    var bottom := rt.log1p(MaxAgeDays as real / 365.0);
    assert MaxAgeDays as real / 365.0 <= age as real / 365.0;
    assert 0.0 < bottom <= top;
    DivAtLeastOne(top, bottom);
  }

  lemma DivAtLeastOne(a: real, b: real)
    requires 0.0 < b <= a
    ensures a / b >= 1.0
  {
  }

  lemma DivMonotone(a: real, b: real, c: real)
    requires 0.0 < c && a <= b
    ensures a / c <= b / c
  {
  }

  lemma MulMonotone(a: real, b: real, c: real)
    requires 0.0 <= c && a <= b
    ensures a * c <= b * c
  {
  }

  /** Older activity never weighs more. */
  lemma TimeWeightNonIncreasing(rt: Runtime, now: Instant, older: Instant, newer: Instant)
    requires Log1pPositive(rt.log1p) && Log1pMonotone(rt.log1p)
    requires older <= newer && DaysBetween(newer, now) >= 0
    ensures TimeWeight(rt, now, Some(older)).0 <= TimeWeight(rt, now, Some(newer)).0
  {
    var a1 := DaysBetween(older, now);
    var a2 := DaysBetween(newer, now);
    assert a2 <= a1 by {
      assert now - newer <= now - older;
    }
    var bottom := rt.log1p(MaxAgeDays as real / 365.0);
    assert a2 as real / 365.0 <= a1 as real / 365.0;
    assert 0.0 < bottom;
    DivMonotone(rt.log1p(a2 as real / 365.0), rt.log1p(a1 as real / 365.0), bottom);
  }

  /**
   * utils.calculate_log_score: 0 when the value or the minimum is not
   * positive, else SCORE_SCALING * log1p(value/min) / log1p(10) clamped to [0, 1].
   */
  function LogScore(rt: Runtime, value: real, minValue: real, p: Profile): (r: real)
    requires Log1pPositive(rt.log1p)
    ensures 0.0 <= r <= 1.0
    ensures value <= 0.0 || minValue <= 0.0 ==> r == 0.0
  {
    if value <= 0.0 || minValue <= 0.0 then 0.0
    else
      var scaling := Setting(p, "SCORE_SCALING", 1.5);
      Clamp01(rt.log1p(value / minValue) / rt.log1p(10.0) * scaling)
  }

  /** For a positive minimum and scaling, the log score never decreases as the value grows. */
  lemma LogScoreMonotone(rt: Runtime, v1: real, v2: real, minValue: real, p: Profile)
    requires Log1pPositive(rt.log1p) && Log1pMonotone(rt.log1p)
    requires 0.0 < minValue && 0.0 < Setting(p, "SCORE_SCALING", 1.5) && v1 <= v2
    ensures LogScore(rt, v1, minValue, p) <= LogScore(rt, v2, minValue, p)
  {
    if v1 > 0.0 {
      DivMonotone(v1, v2, minValue);
      assert rt.log1p(v1 / minValue) <= rt.log1p(v2 / minValue);
      ScaledClampMonotone(rt.log1p(v1 / minValue), rt.log1p(v2 / minValue), rt.log1p(10.0), Setting(p, "SCORE_SCALING", 1.5));
    }
  }

  /** Clamp01(l / base * scaling) grows with l for a positive base and scaling. */
  lemma ScaledClampMonotone(l1: real, l2: real, base: real, scaling: real)
    requires 0.0 < base && 0.0 < scaling && l1 <= l2
    ensures Clamp01(l1 / base * scaling) <= Clamp01(l2 / base * scaling)
  {
    DivMonotone(l1, l2, base);
    MulMonotone(l1 / base, l2 / base, scaling);
    Clamp01Monotone(l1 / base * scaling, l2 / base * scaling);
  }

  lemma Clamp01Monotone(x: real, y: real)
    requires x <= y
    ensures Clamp01(x) <= Clamp01(y)
  {
  }

  /** A positive value over a positive minimum earns a positive score. */
  lemma LogScorePositive(rt: Runtime, value: real, minValue: real, p: Profile)
    requires Log1pPositive(rt.log1p)
    requires 0.0 < value && 0.0 < minValue && 0.0 < Setting(p, "SCORE_SCALING", 1.5)
    ensures 0.0 < LogScore(rt, value, minValue, p)
  {
    var l := rt.log1p(value / minValue);
    assert 0.0 < value / minValue;
    assert 0.0 < l && 0.0 < rt.log1p(10.0);
    assert 0.0 < l / rt.log1p(10.0);
  }
}
