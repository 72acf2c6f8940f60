/** The weekly numbers of the background service: `calcAiScore`, the badge, and the aggregate
    part of `buildPortfolioV01` (minutes per day and per site, top site, change against the
    previous week, streak of active weeks). Days are fixed 86 400 000 ms slots counted from the
    start of the current week. */
module Weekly {
  import opened Common
  import opened Logs

  const DAY_MS := 86400000
  const WEEK_MS := 7 * DAY_MS

  // ---------------------------------------------------------------------------------------
  // Score and badge

  /** `calcAiScore`: 100 below five hours a week, then falling two points per hour, never below 20. */
  function CalcAiScore(hours: real): (score: int)
    ensures 20 <= score <= 100
    ensures hours < 5.0 ==> score == 100
  {
    if hours < 5.0 then 100
    else if hours <= 15.0 then Round(80.0 - (hours - 5.0) * 2.0)
    else if hours <= 20.0 then Round(60.0 - (hours - 15.0) * 2.0)
    else Max(20, Min(100, Round(50.0 - (hours - 20.0) * 2.0)))
  }

  /** Sample points of the curve: 4.9 h gives 100, 5 h 80, 15 h 60, 20 h 50, 30 h 30, and from
      35 h on the floor of 20. */
  lemma ScoreExamples()
    ensures CalcAiScore(4.9) == 100 && CalcAiScore(5.0) == 80 && CalcAiScore(15.0) == 60
    ensures CalcAiScore(20.0) == 50 && CalcAiScore(30.0) == 30 && CalcAiScore(100.0) == 20
  {
  }

  /** The three score bands, as named in the portfolio. */
  function Badge(score: int): string
  {
    if score >= 80 then "Healthy" else if score >= 50 then "Power User" else "Super User"
  }

  /** From five hours on the score is the rounded value of 90 - 2h (before the clamp): the
      three linear pieces meet without a jump. */
  lemma ScoreIsLinearPiece(hours: real)
    requires 5.0 <= hours
    ensures var s := CalcAiScore(hours);
      s == Max(20, Round(90.0 - 2.0 * hours))
  {
  }

  /** The badge by weekly hours: "Healthy" up to 5 h 15 min, "Super User" beyond 20 h 15 min,
      "Power User" in between. */
  lemma {:induction false} BadgeByHours(hours: real)
    ensures Badge(CalcAiScore(hours)) == "Healthy" <==> hours <= 21.0 / 4.0
    ensures Badge(CalcAiScore(hours)) == "Super User" <==> hours > 81.0 / 4.0
  {
    if hours >= 5.0 {
      ScoreIsLinearPiece(hours);
    }
  }

  // ---------------------------------------------------------------------------------------
  // Clipping a log entry to a window

  /** The entry has numeric times and overlaps [lo, hi] in a non-empty interval
      (`Math.max(l.start, lo)` < `Math.min(l.end, hi)`; a non-number gives NaN and no overlap). */
  predicate Overlaps(l: Log, lo: int, hi: int)
  {
    l.start.Ms? && l.end.Ms? && Min(l.end.ms, hi) > Max(l.start.ms, lo)
  }

  /** Length in ms of the overlap, 0 when there is none. */
  function ClipLen(l: Log, lo: int, hi: int): (len: int)
    ensures len >= 0
    ensures len > 0 <==> Overlaps(l, lo, hi)
    ensures len <= Max(0, hi - lo)
  {
    if Overlaps(l, lo, hi) then Min(l.end.ms, hi) - Max(l.start.ms, lo) else 0
  }

  /** Last millisecond of the week starting at ws (`endOfWeek`). */
  function WeekEnd(ws: int): int { ws + WEEK_MS - 1 }

  /** Minutes the entry adds to the current week: whole seconds of overlap, then
      `Math.round(sec / 60)`. */
  function EntryMinutes(l: Log, ws: int): (m: int)
    ensures m >= 0
    ensures !Overlaps(l, ws, WeekEnd(ws)) ==> m == 0
  {
    RoundDiv(ClipLen(l, ws, WeekEnd(ws)) / 1000, 60)
  }

  /** Day slot of an overlapping entry: the day its clipped start falls in. */
  function DayIndex(l: Log, ws: int): (d: int)
    requires Overlaps(l, ws, WeekEnd(ws))
    ensures 0 <= d < 7
  {
    (Max(l.start.ms, ws) - ws) / DAY_MS
  }

  // ---------------------------------------------------------------------------------------
  // Specification of the per-day and per-site buckets

  /** Minutes attributed to day d: every overlapping entry goes whole to the day it starts in. */
  function DayMinutes(all: seq<Log>, ws: int, d: int): int
  {
    if all == [] then 0
    else
      var l := all[|all| - 1];
      DayMinutes(all[..|all| - 1], ws, d) +
        (if Overlaps(l, ws, WeekEnd(ws)) && DayIndex(l, ws) == d then EntryMinutes(l, ws) else 0)
  }

  /** Minutes of all entries in the week. */
  function WeekTotal(all: seq<Log>, ws: int): int
  {
    if all == [] then 0 else WeekTotal(all[..|all| - 1], ws) + EntryMinutes(all[|all| - 1], ws)
  }

  /** The seven day buckets. */
  function Days(all: seq<Log>, ws: int): (days: seq<int>)
    ensures |days| == 7
  {
    seq(7, d => DayMinutes(all, ws, d))
  }

  /** `map.set(k, (map.get(k) || 0) + m)` on an association list in insertion order. */
  function AddTo(a: seq<(string, int)>, k: string, m: int): (r: seq<(string, int)>)
    ensures |r| == |a| || |r| == |a| + 1
  {
    if a == [] then [(k, m)]
    else if a[0].0 == k then [(k, a[0].1 + m)] + a[1..]
    else [a[0]] + AddTo(a[1..], k, m)
  }

  /** The per-site buckets: one entry per site met in an overlapping entry, in first-met order. */
  function DomainTotals(all: seq<Log>, ws: int): seq<(string, int)>
  {
    if all == [] then []
    else
      var l := all[|all| - 1];
      var prior := DomainTotals(all[..|all| - 1], ws);
      if Overlaps(l, ws, WeekEnd(ws)) then AddTo(prior, l.domain, EntryMinutes(l, ws)) else prior
  }

  function Values(a: seq<(string, int)>): int
  {
    if a == [] then 0 else a[0].1 + Values(a[1..])
  }

  /** The sites of an association list, in order. */
  function Keys(a: seq<(string, int)>): (ks: seq<string>)
    ensures |ks| == |a|
    ensures forall i :: 0 <= i < |a| ==> ks[i] == a[i].0
  {
    if a == [] then [] else [a[0].0] + Keys(a[1..])
  }

  predicate KeysUnique(a: seq<(string, int)>)
  {
    forall i, j :: 0 <= i < j < |a| ==> a[i].0 != a[j].0
  }

  /** Minutes recorded for one site. */
  function Lookup(a: seq<(string, int)>, k: string): int
  {
    if a == [] then 0 else if a[0].0 == k then a[0].1 else Lookup(a[1..], k)
  }

  /** The minutes of the entries of one site. */
  function SiteMinutes(all: seq<Log>, ws: int, k: string): int
  {
    if all == [] then 0
    else
      var l := all[|all| - 1];
      SiteMinutes(all[..|all| - 1], ws, k) + (if l.domain == k then EntryMinutes(l, ws) else 0)
  }

  /** A new site goes to the end; a known one keeps its place. */
  lemma {:induction false} AddToKeys(a: seq<(string, int)>, k: string, m: int)
    ensures Keys(AddTo(a, k, m)) == if k in Keys(a) then Keys(a) else Keys(a) + [k]
  {
    if a != [] && a[0].0 != k {
      AddToKeys(a[1..], k, m);
      assert Keys(a) == [a[0].0] + Keys(a[1..]);
    }
  }

  lemma {:induction false} AddToValues(a: seq<(string, int)>, k: string, m: int)
    ensures Values(AddTo(a, k, m)) == Values(a) + m
    ensures forall x :: Lookup(AddTo(a, k, m), x) == Lookup(a, x) + (if x == k then m else 0)
  {
    if a != [] && a[0].0 != k {
      AddToValues(a[1..], k, m);
    }
  }

  lemma {:induction false} UniqueTail(a: seq<(string, int)>)
    requires a != [] && KeysUnique(a)
    ensures KeysUnique(a[1..]) && a[0].0 !in Keys(a[1..])
  {
    var t := a[1..];
    forall i, j | 0 <= i < j < |t| ensures t[i].0 != t[j].0 {
      assert t[i] == a[i + 1] && t[j] == a[j + 1];
    }
  }

  lemma {:induction false} UniqueCons(x: (string, int), t: seq<(string, int)>)
    requires KeysUnique(t) && x.0 !in Keys(t)
    ensures KeysUnique([x] + t)
  {
    var a := [x] + t;
    forall i, j | 0 <= i < j < |a| ensures a[i].0 != a[j].0 {
      assert a[j] == t[j - 1];
      if i > 0 {
        assert a[i] == t[i - 1];
      } else {
        assert Keys(t)[j - 1] == t[j - 1].0;
      }
    }
  }

  lemma {:induction false} AddToUnique(a: seq<(string, int)>, k: string, m: int)
    requires KeysUnique(a)
    ensures KeysUnique(AddTo(a, k, m))
  {
    if a != [] {
      UniqueTail(a);
      if a[0].0 != k {
        AddToUnique(a[1..], k, m);
        AddToKeys(a[1..], k, m);
        UniqueCons(a[0], AddTo(a[1..], k, m));
      } else {
        UniqueCons((k, a[0].1 + m), a[1..]);
      }
    }
  }

  /** The per-site buckets are a map: no site twice, each holding exactly that site's minutes,
      and together the minutes of the whole week. */
  lemma {:induction false} DomainTotalsFacts(all: seq<Log>, ws: int)
    ensures var a := DomainTotals(all, ws);
      && KeysUnique(a) && Values(a) == WeekTotal(all, ws)
      && forall k :: Lookup(a, k) == SiteMinutes(all, ws, k)
  {
    if all != [] {
      var p := all[..|all| - 1];
      var l := all[|all| - 1];
      DomainTotalsFacts(p, ws);
      if Overlaps(l, ws, WeekEnd(ws)) {
        AddToValues(DomainTotals(p, ws), l.domain, EntryMinutes(l, ws));
        AddToUnique(DomainTotals(p, ws), l.domain, EntryMinutes(l, ws));
      }
    }
  }

  lemma {:induction false} SumDaysStep(all: seq<Log>, l: Log, ws: int)
    ensures Sum(Days(all + [l], ws)) == Sum(Days(all, ws)) + EntryMinutes(l, ws)
  {
    var s := all + [l];
    assert s[..|s| - 1] == all && s[|s| - 1] == l;
    var a, b := Days(s, ws), Days(all, ws);
    var extra := seq(7, d => if Overlaps(l, ws, WeekEnd(ws)) && DayIndex(l, ws) == d then EntryMinutes(l, ws) else 0);
    assert forall d :: 0 <= d < 7 ==> a[d] == b[d] + extra[d];
    SumPointwise(b, extra, a);
    if Overlaps(l, ws, WeekEnd(ws)) {
      SumSingle(extra, DayIndex(l, ws));
    } else {
      SumSingle(extra, 0);
    }
  }

  lemma {:induction false} SumPointwise(b: seq<int>, c: seq<int>, a: seq<int>)
    requires |a| == |b| == |c|
    requires forall d :: 0 <= d < |a| ==> a[d] == b[d] + c[d]
    ensures Sum(a) == Sum(b) + Sum(c)
  {
    if a != [] {
      var n := |a| - 1;
      SumPointwise(b[..n], c[..n], a[..n]);
    }
  }

  /** A sequence that is zero outside position i sums to its value at i. */
  lemma {:induction false} SumSingle(c: seq<int>, i: int)
    requires 0 <= i < |c|
    requires forall d :: 0 <= d < |c| && d != i ==> c[d] == 0
    ensures Sum(c) == c[i]
  {
    var n := |c| - 1;
    if n == i {
      SumZero(c[..n]);
    } else {
      SumSingle(c[..n], i);
    }
  }

  lemma {:induction false} SumZero(c: seq<int>)
    requires forall d :: 0 <= d < |c| ==> c[d] == 0
    ensures Sum(c) == 0
  {
    if c != [] {
      SumZero(c[..|c| - 1]);
    }
  }

  /** The day buckets add up to the minutes of the whole week: no overlapping entry falls
      outside the seven days. */
  lemma {:induction false} DaysSumToWeek(all: seq<Log>, ws: int)
    ensures Sum(Days(all, ws)) == WeekTotal(all, ws)
  {
    if all == [] {
      var z := Days(all, ws);
      SumZero(z);
    } else {
      var p := all[..|all| - 1];
      DaysSumToWeek(p, ws);
      SumDaysStep(p, all[|all| - 1], ws);
      assert p + [all[|all| - 1]] == all;
    }
  }

  // ---------------------------------------------------------------------------------------
  // Top site

  /** The scan for the top site: a bucket replaces the best so far only with strictly more
      minutes, starting from ("—", 0). */
  function TopOf(a: seq<(string, int)>): (top: (string, int))
    ensures top.1 >= 0
    ensures forall j :: 0 <= j < |a| ==> a[j].1 <= top.1
    ensures (forall j :: 0 <= j < |a| ==> a[j].1 <= 0) ==> top == ("\U{2014}", 0)
  {
    if a == [] then ("\U{2014}", 0)
    else
      var best := TopOf(a[..|a| - 1]);
      assert forall j :: 0 <= j < |a| - 1 ==> a[j] == a[..|a| - 1][j];
      if a[|a| - 1].1 > best.1 then a[|a| - 1] else best
  }

  /** The top site is the first bucket holding the most minutes, or ("—", 0) when no bucket
      holds a positive number. */
  lemma {:induction false} TopOfIsFirstMax(a: seq<(string, int)>)
    ensures var top := TopOf(a);
      top == ("\U{2014}", 0) ||
      exists k :: 0 <= k < |a| && a[k] == top && top.1 > 0 && forall j :: 0 <= j < k ==> a[j].1 < top.1
  {
    if a != [] {
      var p := a[..|a| - 1];
      TopOfIsFirstMax(p);
      var best := TopOf(p);
      if a[|a| - 1].1 > best.1 {
        var k := |a| - 1;
        assert forall j :: 0 <= j < k ==> a[j] == p[j];
      } else if best != ("\U{2014}", 0) {
        var k :| 0 <= k < |p| && p[k] == best && best.1 > 0 && forall j :: 0 <= j < k ==> p[j].1 < best.1;
        assert a[k] == best;
      }
    }
  }

  // ---------------------------------------------------------------------------------------
  // Previous week and streak

  /** Minutes of a window as the previous-week and streak loops count them: each entry adds
      `Math.round(overlap / 60000)`. */
  function WeekMinutes(logs: seq<Log>, lo: int, hi: int): (m: int)
    ensures m >= 0
  {
    if logs == [] then 0
    else WeekMinutes(logs[..|logs| - 1], lo, hi) + RoundDiv(ClipLen(logs[|logs| - 1], lo, hi), 60000)
  }

  /** Minutes of the week `back` weeks before the week starting at ws. */
  function WeekBack(logs: seq<Log>, ws: int, back: int): int
  {
    WeekMinutes(logs, ws - back * WEEK_MS, WeekEnd(ws - back * WEEK_MS))
  }

  method WeekMinutesOf(logs: seq<Log>, lo: int, hi: int) returns (mins: int)
    ensures mins == WeekMinutes(logs, lo, hi)
  {
    mins := 0;
    var i := 0;
    while i < |logs|
      invariant 0 <= i <= |logs|
      invariant mins == WeekMinutes(logs[..i], lo, hi)
    {
      var l := logs[i];
      assert logs[..i + 1][..i] == logs[..i];
      if l.start.Ms? && l.end.Ms? {
        var s := Max(l.start.ms, lo);
        var e := Min(l.end.ms, hi);
        if e > s {
          mins := mins + RoundDiv(e - s, 60000);
        }
      }
      i := i + 1;
    }
    assert logs[..i] == logs;
  }

  /** No numeric start lies below the result, and it is at most ws. */
  function LowestStart(logs: seq<Log>, ws: int): (lo: int)
    ensures lo <= ws
    ensures forall i :: 0 <= i < |logs| && logs[i].start.Ms? ==> lo <= logs[i].start.ms
  {
    if logs == [] then ws
    else
      var rest := LowestStart(logs[..|logs| - 1], ws);
      var l := logs[|logs| - 1];
      if l.start.Ms? then Min(rest, l.start.ms) else rest
  }

  /** A window ending at or before every start holds no minutes. */
  lemma {:induction false} EmptyBeforeFirst(logs: seq<Log>, lo: int, hi: int)
    requires forall i :: 0 <= i < |logs| && logs[i].start.Ms? ==> hi <= logs[i].start.ms
    ensures WeekMinutes(logs, lo, hi) == 0
  {
    if logs != [] {
      EmptyBeforeFirst(logs[..|logs| - 1], lo, hi);
      assert !Overlaps(logs[|logs| - 1], lo, hi);
    }
  }

  /** The weeks older than the bound hold no minutes: the streak loop ends. */
  lemma StreakBound(logs: seq<Log>, ws: int, back: int)
    requires back >= (ws - LowestStart(logs, ws)) / WEEK_MS + 2
    ensures WeekBack(logs, ws, back) == 0
  {
    var lo := LowestStart(logs, ws);
    assert WeekEnd(ws - back * WEEK_MS) <= lo;
    EmptyBeforeFirst(logs, ws - back * WEEK_MS, WeekEnd(ws - back * WEEK_MS));
  }

  // ---------------------------------------------------------------------------------------
  // Most active day

  /** `perDay.reduce((best, i, _, arr) => arr[i] > arr[best] ? i : best, 0)` as written: the
      reducer's second argument is the element, not its index, so each day's minute count is
      used as a day number. */
  function MostIdxAsWritten(days: seq<int>): (r: int)
    requires |days| == 7
    ensures 0 <= r < 7
  {
    MostFold(days, 0, 0)
  }

  function MostFold(days: seq<int>, i: nat, best: int): (r: int)
    requires 0 <= best < |days|
    ensures 0 <= r < |days|
    decreases |days| - i
  {
    if i >= |days| then best
    else
      var v := days[i];
      MostFold(days, i + 1, if 0 <= v < |days| && days[v] > days[best] then v else best)
  }

  /** The evidently intended reducer `(best, v, i, arr) => arr[i] > arr[best] ? i : best`. */
  function ArgMaxFold(days: seq<int>, i: nat, best: int): (r: int)
    requires 0 <= best < |days| && i <= |days|
    requires forall j :: 0 <= j < i ==> days[j] <= days[best]
    requires forall j :: 0 <= j < best ==> days[j] < days[best]
    ensures 0 <= r < |days|
    ensures forall j :: 0 <= j < |days| ==> days[j] <= days[r]
    ensures forall j :: 0 <= j < r ==> days[j] < days[r]
    decreases |days| - i
  {
    if i >= |days| then best
    else ArgMaxFold(days, i + 1, if days[i] > days[best] then i else best)
  }

  /** The most active day: the first day with the most minutes. */
  function MostIdx(days: seq<int>): (r: int)
    requires |days| == 7
    ensures 0 <= r < 7
    ensures forall j :: 0 <= j < 7 ==> days[j] <= days[r]
    ensures forall j :: 0 <= j < r ==> days[j] < days[r]
  {
    ArgMaxFold(days, 0, 0)
  }

  /** A week active only on Sunday: the written reducer reports Monday... */
  lemma MostIdxAsWrittenCounterexample()
    ensures MostIdxAsWritten([0, 0, 0, 0, 0, 0, 30]) == 0
  {
    var days := [0, 0, 0, 0, 0, 0, 30];
    assert MostFold(days, 6, 0) == 0 by {
      assert !(0 <= days[6] < |days|);
    }
    assert MostFold(days, 0, 0) == MostFold(days, 6, 0) by {
      assert days[0] == days[1] == days[2] == days[3] == days[4] == days[5] == 0;
    }
  }

  /** ... where the intended one reports Sunday. */
  lemma MostIdxExample()
    ensures MostIdx([0, 0, 0, 0, 0, 0, 30]) == 6
  {
    var days := [0, 0, 0, 0, 0, 0, 30];
    var r := MostIdx(days);
    assert days[6] <= days[r];
  }

  // ---------------------------------------------------------------------------------------
  // The aggregate

  datatype Aggregate = Aggregate(
    perDay: seq<int>, perDomain: seq<(string, int)>, totalMin: int,
    topName: string, topMin: int, mostIdx: int,
    prevMin: int, changePct: Option<real>, streak: nat,
    score: int, badge: string)

  /** `change_vs_prev_week_pct`: the change in percent of the previous week's minutes, or no
      value (`null`) when the previous week had none. */
  function ChangePct(totalMin: int, prevMin: int): (pct: Option<real>)
    ensures pct.None? <==> prevMin <= 0
    ensures pct.Some? ==> (pct.value == 0.0 <==> totalMin == prevMin)
  {
    if prevMin > 0 then Some((totalMin - prevMin) as real / prevMin as real * 100.0) else None
  }

  /** The stored logs plus, when a session with a start and a tab is running, that session cut
      at now. */
  function AllEntries(logs: seq<Log>, active: Option<Session>, now: int): seq<Log>
  {
    if active.Some? && active.value.start != 0 && active.value.tabId != 0
    then logs + [Log(Ms(active.value.start), Ms(now), active.value.domain)]
    else logs
  }

  /** The bucket loop: every entry overlapping the week adds its rounded minutes to the day
      it starts in and to its site. */
  method FillBuckets(all: seq<Log>, ws: int) returns (days: seq<int>, perDomain: seq<(string, int)>)
    ensures days == Days(all, ws) && perDomain == DomainTotals(all, ws)
  {
    var weekEnd := WeekEnd(ws);
    var perDay := new int[7](_ => 0);
    perDomain := [];
    var i := 0;
    while i < |all|
      invariant 0 <= i <= |all|
      invariant perDay[..] == Days(all[..i], ws)
      invariant perDomain == DomainTotals(all[..i], ws)
    {
      var l := all[i];
      assert all[..i + 1][..i] == all[..i] && all[..i + 1][i] == l;
      if l.start.Ms? && l.end.Ms? {
        var s := Max(l.start.ms, ws);
        var e := Min(l.end.ms, weekEnd);
        if e > s {
          var sec := (e - s) / 1000;
          var dayIdx := (s - ws) / DAY_MS;
          var m := RoundDiv(sec, 60);
          if dayIdx >= 0 && dayIdx < 7 {
            perDay[dayIdx] := perDay[dayIdx] + m;
          }
          perDomain := AddTo(perDomain, l.domain, m);
        }
      }
      i := i + 1;
    }
    assert all[..i] == all;
    days := perDay[..];
  }

  /** The top-site loop over the buckets in insertion order. */
  method FindTop(perDomain: seq<(string, int)>) returns (topName: string, topMin: int)
    ensures (topName, topMin) == TopOf(perDomain)
  {
    topName, topMin := "\U{2014}", 0;
    var k := 0;
    while k < |perDomain|
      invariant 0 <= k <= |perDomain|
      invariant (topName, topMin) == TopOf(perDomain[..k])
    {
      assert perDomain[..k + 1][..k] == perDomain[..k];
      if perDomain[k].1 > topMin {
        topName, topMin := perDomain[k].0, perDomain[k].1;
      }
      k := k + 1;
    }
    assert perDomain[..k] == perDomain;
  }

  /** The streak loop: walks back week by week from the current one and stops at the first week
      without minutes; it ends because no week before the earliest log has any. */
  method CountStreak(logs: seq<Log>, ws: int) returns (streak: nat)
    ensures forall j :: 0 <= j < streak ==> WeekBack(logs, ws, j) > 0
    ensures WeekBack(logs, ws, streak) == 0
  {
    var bound := (ws - LowestStart(logs, ws)) / WEEK_MS + 2;
    streak := 0;
    while true
      invariant streak <= bound
      invariant forall j :: 0 <= j < streak ==> WeekBack(logs, ws, j) > 0
      decreases bound - streak
    {
      var wS := ws - streak * WEEK_MS;
      var mins := WeekMinutesOf(logs, wS, WeekEnd(wS));
      if mins > 0 {
        if streak >= bound {
          StreakBound(logs, ws, streak);
        }
        streak := streak + 1;
      } else {
        return;
      }
    }
  }

  /** The aggregate part of `buildPortfolioV01` for the week starting at ws. */
  method BuildAggregate(logs: seq<Log>, active: Option<Session>, now: int, ws: int)
    returns (agg: Aggregate)
    ensures var all := AllEntries(logs, active, now);
      && agg.perDay == Days(all, ws)
      && agg.perDomain == DomainTotals(all, ws)
      && agg.totalMin == Sum(agg.perDay) == WeekTotal(all, ws) == Values(agg.perDomain)
    ensures KeysUnique(agg.perDomain)
    ensures (agg.topName, agg.topMin) == TopOf(agg.perDomain)
    ensures agg.mostIdx == MostIdxAsWritten(agg.perDay) && 0 <= agg.mostIdx < 7
    ensures agg.prevMin == WeekMinutes(logs, ws - WEEK_MS, ws - 1)
    ensures agg.changePct == ChangePct(agg.totalMin, agg.prevMin)
    ensures forall j :: 0 <= j < agg.streak ==> WeekBack(logs, ws, j) > 0
    ensures WeekBack(logs, ws, agg.streak) == 0
    ensures agg.score == CalcAiScore(agg.totalMin as real / 60.0) && agg.badge == Badge(agg.score)
  {
    var all := AllEntries(logs, active, now);
    var days, perDomain := FillBuckets(all, ws);
    DaysSumToWeek(all, ws);
    DomainTotalsFacts(all, ws);
    var totalMin := Sum(days);
    var topName, topMin := FindTop(perDomain);
    var prevMin := WeekMinutesOf(logs, ws - WEEK_MS, ws - 1);
    var changePct := ChangePct(totalMin, prevMin);
    var streak := CountStreak(logs, ws);
    var score := CalcAiScore(totalMin as real / 60.0);
    agg := Aggregate(days, perDomain, totalMin, topName, topMin, MostIdxAsWritten(days),
                     prevMin, changePct, streak, score, Badge(score));
  }
}
