/** The student page: the daily series its bar chart draws (`extractDaily`) and the texts
    `render` puts in the stat tiles. `validate`, `topTool` and `fmtHM` are the ones of the
    Portfolio and Format modules. */
module Student {
  import opened Common
  import opened Text
  import opened JsValue
  import opened Portfolio
  import opened Format

  // ---------------------------------------------------------------------------------------
  // extractDaily

  /** `Math.max(0, v)` for a number that may be NaN (the maximum with NaN is NaN). */
  function AtLeast0(v: Value): (r: Value)
    requires v.Num? || v.NaN?
  {
    if v.Num? then Num(if v.n < 0.0 then 0.0 else v.n) else NaN
  }

  /** One bar of a seven-entry breakdown: `Math.max(0, Math.round(x.minutes || 0))`; none when
      the entry is null or undefined, where reading `.minutes` throws. */
  function DailyValue(x: Value): (r: Option<Value>)
    ensures r.None? <==> x.Null? || x.Undefined?
    ensures r.Some? ==> (r.value.Num? || r.value.NaN?)
    ensures r.Some? && r.value.Num? ==> r.value.n >= 0.0 && r.value.n.Floor as real == r.value.n
    ensures r.Some? ==> (r.value.NaN? <==> Minutes(x).NaN?)
    ensures r.Some? && Minutes(x).Num? ==>
      var m := Minutes(x).n;
      (m < -1.0 / 2.0 ==> r.value.n == 0.0) && (m >= 0.0 ==> r.value.n - 1.0 / 2.0 <= m < r.value.n + 1.0 / 2.0)
  {
    if x.Null? || x.Undefined? then None
    else Some(AtLeast0(JsRound(Or(Get(x, "minutes"), Num(0.0)))))
  }

  /** `Number(x.minutes || 0)`. */
  function Minutes(x: Value): Value
  {
    ToNumber(Or(Get(x, "minutes"), Num(0.0)))
  }

  /** The daily values of a breakdown, or none when one of them throws. */
  function DailyValues(items: seq<Value>): (r: Option<seq<Value>>)
    ensures r.Some? <==> forall i :: 0 <= i < |items| ==> DailyValue(items[i]).Some?
    ensures r.Some? ==> |r.value| == |items|
    ensures r.Some? ==> forall i :: 0 <= i < |items| ==> Some(r.value[i]) == DailyValue(items[i])
  {
    if items == [] then Some([])
    else
      var head := DailyValue(items[0]);
      var rest := DailyValues(items[1..]);
      assert forall i :: 1 <= i < |items| ==> items[i] == items[1..][i - 1];
      if head.Some? && rest.Some? then Some([head.value] + rest.value)
      else None
  }

  /** `extractDaily` on a validated portfolio: a seven-entry `weekly_breakdown` array is mapped
      entry by entry; anything else gives seven copies of `Math.round((totals.minutes || 0) / 7)`.
      None is the TypeError of a null or undefined breakdown entry. */
  function ExtractDaily(d: Value): (r: Option<seq<Value>>)
    requires Validate(d)
    ensures r.Some? ==> |r.value| == 7
    ensures HasBreakdown(d) && r.Some? ==> forall i :: 0 <= i < 7 ==>
      r.value[i].NaN? || (r.value[i].Num? && r.value[i].n >= 0.0 && r.value[i].n.Floor as real == r.value[i].n)
    ensures !HasBreakdown(d) ==> r.Some? && forall i :: 0 <= i < 7 ==> r.value[i] == r.value[0] && r.value[i].Num?
  {
    var wb := Get(d, "weekly_breakdown");
    if wb.Arr? && |wb.items| == 7 then DailyValues(wb.items)
    else
      var avg := Num(Round(NumberOr0(Or(Get(Get(d, "totals"), "minutes"), Num(0.0))) / 7.0) as real);
      Some([avg, avg, avg, avg, avg, avg, avg])
  }

  /** The portfolio carries a seven-entry breakdown array. */
  predicate HasBreakdown(d: Value)
  {
    Get(d, "weekly_breakdown").Arr? && |Get(d, "weekly_breakdown").items| == 7
  }

  /** With a seven-entry breakdown, each bar is the clamped, rounded minutes of its own entry,
      and the series exists exactly when no entry is null or undefined. */
  lemma ExtractDailyBreakdown(d: Value)
    requires Validate(d) && HasBreakdown(d)
    ensures var items := Get(d, "weekly_breakdown").items;
      ExtractDaily(d).Some? <==> forall i :: 0 <= i < 7 ==> !items[i].Null? && !items[i].Undefined?
    ensures var items := Get(d, "weekly_breakdown").items;
      ExtractDaily(d).Some? ==> forall i :: 0 <= i < 7 ==> Some(ExtractDaily(d).value[i]) == DailyValue(items[i])
  {
  }

  /** Without one, the seven bars are equal, and their sum is the weekly total (0 for NaN) up to
      the rounding of each seventh: within 7/2 minutes. */
  lemma ExtractDailyAverage(d: Value)
    requires Validate(d) && !HasBreakdown(d)
    ensures ExtractDaily(d).Some?
    ensures var r := ExtractDaily(d).value;
      var total := NumberOr0(Get(Get(d, "totals"), "minutes"));
      && (forall i :: 0 <= i < 7 ==> r[i] == r[0])
      && r[0].Num? && r[0].n.Floor as real == r[0].n
      && 7.0 * r[0].n - 7.0 / 2.0 <= total < 7.0 * r[0].n + 7.0 / 2.0
  {
    var m := Get(Get(d, "totals"), "minutes");
    assert NumberOr0(Or(m, Num(0.0))) == NumberOr0(m);
  }

  // ---------------------------------------------------------------------------------------
  // The stat tiles

  /** The total tile: `fmtHM(d.totals.minutes)`; a NaN total reads "NaNm". */
  function TotalText(d: Value): (r: string)
    requires Validate(d)
    ensures Get(Get(d, "totals"), "minutes").NaN? ==> r == "NaNm"
  {
    var m := Get(Get(d, "totals"), "minutes");
    if m.Num? then FmtHM(m.n) else "NaNm"
  }

  /** The total tile reads back as the weekly minutes, rounded and clamped at 0 (in seconds). */
  lemma TotalTextRoundTrip(d: Value)
    requires Validate(d) && Get(Get(d, "totals"), "minutes").Num?
    ensures ParseDuration(TotalText(d)) == Some(60 * Max(0, Round(Get(Get(d, "totals"), "minutes").n)))
  {
    FmtHMRoundTrip(Get(Get(d, "totals"), "minutes").n);
  }

  /** The top-tool tile: the name of `topTool(d)`, or '—' when there is none. */
  function TopText(d: Value): (r: string)
    ensures Entries(ByDomain(d)) == [] ==> r == "—"
    ensures TopToolOf(d).Some? ==> r == TopToolOf(d).value.0
    ensures Entries(ByDomain(d)) != [] ==> exists i :: 0 <= i < |Entries(ByDomain(d))| && r == Entries(ByDomain(d))[i].0
  {
    match TopToolOf(d)
    case None => "—"
    case Some(e) =>
      assert e in Entries(ByDomain(d));
      e.0
  }

  /** When every minute count is a number, the tile names the first site with the most minutes. */
  lemma TopTextIsFirstMax(d: Value) returns (k: nat)
    requires Entries(ByDomain(d)) != [] && NumericMinutes(Entries(ByDomain(d)))
    ensures k < |Entries(ByDomain(d))| && TopText(d) == Entries(ByDomain(d))[k].0
    ensures FirstMax(Entries(ByDomain(d)), k)
  {
    k := TopToolIsFirstMax(d);
  }

  /** The score tile: `String(Math.round(d.score ?? 0))`. */
  function ScoreText(d: Value): (r: string)
    ensures ToNumber(Nullish(Get(d, "score"), Num(0.0))).NaN? ==> r == "NaN"
  {
    ToText(JsRound(Nullish(Get(d, "score"), Num(0.0))))
  }

  /** `a ?? b`: b when a is null or undefined. */
  function Nullish(a: Value, b: Value): (r: Value)
    ensures a.Null? || a.Undefined? ==> r == b
    ensures !a.Null? && !a.Undefined? ==> r == a
  {
    if a.Null? || a.Undefined? then b else a
  }

  /** A missing score reads "0", and a numeric score of at least -1/2 reads back as itself
      rounded half up. */
  lemma ScoreTextReadsBack(d: Value)
    ensures Get(d, "score").Null? || Get(d, "score").Undefined? ==> ScoreText(d) == "0"
    ensures Get(d, "score").Num? && Get(d, "score").n >= -1.0 / 2.0 ==>
      ParseDigits(ScoreText(d)) == Round(Get(d, "score").n)
  {
    var s := Get(d, "score");
    if s.Num? && s.n >= -1.0 / 2.0 {
      var r := Round(s.n);
      assert JsRound(s) == Num(r as real);
      DigitsRoundTrip(r);
    }
  }

  /** The streak tile: `${d.streak_weeks ?? 0} week${(d.streak_weeks || 0) === 1 ? '' : 's'}`. */
  function StreakText(d: Value): (r: string)
    ensures r != [] && (r[|r| - 1] == 's' <==> Or(Get(d, "streak_weeks"), Num(0.0)) != Num(1.0))
  {
    var s := Get(d, "streak_weeks");
    ToText(Nullish(s, Num(0.0))) + " week" + (if Or(s, Num(0.0)) == Num(1.0) then "" else "s")
  }

  /** A streak of one week is singular; a missing streak and any other whole count are plural. */
  lemma StreakTextCases(d: Value)
    ensures Get(d, "streak_weeks") == Num(1.0) ==> StreakText(d) == "1 week"
    ensures Get(d, "streak_weeks").Null? || Get(d, "streak_weeks").Undefined? ==> StreakText(d) == "0 weeks"
    ensures var s := Get(d, "streak_weeks");
      s.Num? && s.n >= 0.0 && s.n.Floor as real == s.n && s.n != 1.0 ==> StreakText(d) == Digits(s.n.Floor) + " weeks"
  {
    var s := Get(d, "streak_weeks");
    if s == Num(1.0) {
      assert ToText(s) == Digits(1) == "1";
    } else if s.Null? || s.Undefined? {
      assert ToText(Num(0.0)) == Digits(0) == "0";
    } else if s.Num? && s.n >= 0.0 && s.n.Floor as real == s.n {
      assert ToText(s) == Digits(s.n.Floor);
      assert Or(s, Num(0.0)) != Num(1.0);
    }
  }

  /** The badge tile: `d.badge || '—'`. */
  function BadgeText(d: Value): (r: string)
    ensures !Truthy(Get(d, "badge")) ==> r == "—"
    ensures Get(d, "badge").Str? && Get(d, "badge").s != [] ==> r == Get(d, "badge").s
  {
    ToText(Or(Get(d, "badge"), Str("—")))
  }

  // ---------------------------------------------------------------------------------------
  // The change tile and `toFixed(1)`

  /** `x.toFixed(1)` of a non-negative number: the nearest multiple of 1/10, the larger one on a
      tie, as whole part, point and one decimal. */
  function Fixed1Abs(y: real): (r: string)
    requires y >= 0.0
    ensures |r| >= 3 && IsDigit(r[0])
  {
    var n := (10.0 * y + 1.0 / 2.0).Floor;
    Digits(n / 10) + "." + [DigitChar(n % 10)]
  }

  /** `x.toFixed(1)`: a negative number is its magnitude's text after a minus sign. */
  function ToFixed1(x: real): (r: string)
    ensures r != [] && r[0] != '+'
  {
    if x < 0.0 then "-" + Fixed1Abs(-x) else Fixed1Abs(x)
  }

  /** Reads "D.d" (digits, a point, one digit) as a count of tenths. */
  function ParseTenths(s: string): Option<int>
  {
    if |s| >= 3 && s[|s| - 2] == '.' && IsDigit(s[|s| - 1]) && forall i :: 0 <= i < |s| - 2 ==> IsDigit(s[i])
    then Some(10 * ParseDigits(s[..|s| - 2]) + (s[|s| - 1] as int - '0' as int))
    else None
  }

  /** Reads a `toFixed(1)` text, with its optional minus sign, as a count of tenths. */
  function ParseFixed1(s: string): Option<int>
  {
    if s != [] && s[0] == '-' then
      match ParseTenths(s[1..])
      case Some(t) => Some(-t)
      case None => None
    else ParseTenths(s)
  }

  lemma Fixed1AbsReadsBack(y: real)
    requires y >= 0.0
    ensures ParseTenths(Fixed1Abs(y)) == Some((10.0 * y + 1.0 / 2.0).Floor)
  {
    var n := (10.0 * y + 1.0 / 2.0).Floor;
    var r := Fixed1Abs(y);
    assert r[..|r| - 2] == Digits(n / 10);
    DigitsRoundTrip(n / 10);
  }

  /** `toFixed(1)` reads back as a number of tenths within 1/20 of the number. */
  lemma ToFixed1ReadsBack(x: real)
    ensures ParseFixed1(ToFixed1(x)).Some?
    ensures var t := ParseFixed1(ToFixed1(x)).value;
      t as real / 10.0 - 1.0 / 20.0 <= x <= t as real / 10.0 + 1.0 / 20.0
  {
    var y := if x < 0.0 then -x else x;
    var n := (10.0 * y + 1.0 / 2.0).Floor;
    Fixed1AbsReadsBack(y);
    TenthsBounds(y);
    if x < 0.0 {
      assert ToFixed1(x)[1..] == Fixed1Abs(y);
      assert ParseFixed1(ToFixed1(x)) == Some(-n);
    } else {
      assert ParseFixed1(ToFixed1(x)) == Some(n);
    }
  }

  /** Rounding to the nearest tenth moves a number by at most 1/20. */
  lemma TenthsBounds(y: real)
    ensures var n := (10.0 * y + 1.0 / 2.0).Floor;
      n as real / 10.0 - 1.0 / 20.0 <= y <= n as real / 10.0 + 1.0 / 20.0
  {
  }

  /** The change tile: '—' unless `change_vs_prev_week_pct` is a number, otherwise the number to
      one decimal with a '+' before a non-negative one and '%' after; NaN reads "NaN%". */
  function ChangeText(d: Value): (r: string)
    ensures r == "—" <==> !IsNumber(Get(d, "change_vs_prev_week_pct"))
    ensures IsNumber(Get(d, "change_vs_prev_week_pct")) ==> r != [] && r[|r| - 1] == '%'
    ensures r != [] && r[0] == '+' <==> Get(d, "change_vs_prev_week_pct").Num? && Get(d, "change_vs_prev_week_pct").n >= 0.0
  {
    match Get(d, "change_vs_prev_week_pct")
    case Num(ch) => (if ch >= 0.0 then "+" else "") + ToFixed1(ch) + "%"
    case NaN => "NaN%"
    case _ => "—"
  }
}
