/** The popup's own numbers: `sumInRange` and `computeWeekAggregates` of the weekly report
    (seconds per day, split across day boundaries, and seconds per site), `scoreBand`, the
    paged log table with its filters, and the minutes of "pause for today". */
module Popup {
  import opened Common
  import opened Text
  import opened Sorting
  import opened Logs
  import opened Weekly

  // ---------------------------------------------------------------------------------------
  // Seconds in a window

  /** Milliseconds the stored entries spend inside [lo, hi], each entry clipped on its own. */
  function LogsMs(logs: seq<Log>, lo: int, hi: int): (ms: int)
    ensures ms >= 0
  {
    if logs == [] then 0 else LogsMs(logs[..|logs| - 1], lo, hi) + ClipLen(logs[|logs| - 1], lo, hi)
  }

  /** `active?.start && active?.domain`: a running session counts only with a non-zero start
      and a non-empty site. */
  predicate Counted(active: Option<Session>)
  {
    active.Some? && active.value.start != 0 && active.value.domain != []
  }

  /** The running session as an entry ending now. */
  function Running(a: Session, now: int): Log
  {
    Log(Ms(a.start), Ms(now), a.domain)
  }

  /** Milliseconds the running session spends inside [lo, hi], cut at now. */
  function ActiveMs(active: Option<Session>, lo: int, hi: int, now: int): (ms: int)
    ensures ms >= 0
    ensures !Counted(active) ==> ms == 0
  {
    if Counted(active) then ClipLen(Running(active.value, now), lo, hi) else 0
  }

  /** What `sumInRange` promises: the whole seconds of every positive overlap with the window,
      the running session included, floored once at the end. */
  function RangeSec(logs: seq<Log>, active: Option<Session>, lo: int, hi: int, now: int): (sec: int)
    ensures sec >= 0
    ensures sec * 1000 <= LogsMs(logs, lo, hi) + ActiveMs(active, lo, hi, now) < sec * 1000 + 1000
  {
    (LogsMs(logs, lo, hi) + ActiveMs(active, lo, hi, now)) / 1000
  }

  /** `sumInRange`: the loop over the stored entries, then the running session. */
  method SumInRange(logs: seq<Log>, active: Option<Session>, lo: int, hi: int, now: int)
    returns (sec: int)
    ensures sec == RangeSec(logs, active, lo, hi, now)
  {
    var sum := 0;
    var i := 0;
    while i < |logs|
      invariant 0 <= i <= |logs|
      invariant sum == LogsMs(logs[..i], lo, hi)
    {
      assert logs[..i + 1][..i] == logs[..i];
      var l := logs[i];
      if l.start.Ms? && l.end.Ms? {
        var s := Max(l.start.ms, lo);
        var e := Min(l.end.ms, hi);
        if e > s {
          sum := sum + (e - s);
        }
      }
      i := i + 1;
    }
    assert logs[..i] == logs;
    if active.Some? && active.value.start != 0 && active.value.domain != [] {
      var s := Max(active.value.start, lo);
      var e := Min(now, hi);
      if e > s {
        sum := sum + (e - s);
      }
    }
    sec := sum / 1000;
  }

  /** An overlap splits exactly at any point of the window. */
  lemma ClipSplit(l: Log, lo: int, mid: int, hi: int)
    requires lo <= mid <= hi
    ensures ClipLen(l, lo, hi) == ClipLen(l, lo, mid) + ClipLen(l, mid, hi)
  {
  }

  /** The stored entries' time in a window is the sum of their time in its two halves. */
  lemma {:induction false} LogsMsSplit(logs: seq<Log>, lo: int, mid: int, hi: int)
    requires lo <= mid <= hi
    ensures LogsMs(logs, lo, hi) == LogsMs(logs, lo, mid) + LogsMs(logs, mid, hi)
  {
    if logs != [] {
      LogsMsSplit(logs[..|logs| - 1], lo, mid, hi);
      ClipSplit(logs[|logs| - 1], lo, mid, hi);
    }
  }

  /** Start of day slot i of the week starting at ws. */
  function DayStart(ws: int, i: int): int { ws + i * DAY_MS }

  /** Milliseconds of day slot i, before flooring. */
  function DayMs(logs: seq<Log>, active: Option<Session>, ws: int, i: int, now: int): int
  {
    LogsMs(logs, DayStart(ws, i), DayStart(ws, i + 1)) + ActiveMs(active, DayStart(ws, i), DayStart(ws, i + 1), now)
  }

  /** The seconds of day slot i. */
  function DaySec(logs: seq<Log>, active: Option<Session>, ws: int, i: int, now: int): int
  {
    RangeSec(logs, active, DayStart(ws, i), DayStart(ws, i + 1), now)
  }

  /** The first k day slots cover [ws, ws + k days] without gap or overlap: their milliseconds
      add up to those of that span. */
  lemma {:induction false} DaysCoverSpan(logs: seq<Log>, active: Option<Session>, ws: int, now: int, k: nat)
    ensures Sum(seq(k, i => DayMs(logs, active, ws, i, now)))
         == LogsMs(logs, ws, DayStart(ws, k)) + ActiveMs(active, ws, DayStart(ws, k), now)
  {
    var s := seq(k, i => DayMs(logs, active, ws, i, now));
    if k == 0 {
      assert LogsMs(logs, ws, ws) == 0 by { LogsMsSplit(logs, ws, ws, ws); }
      if Counted(active) {
        ClipSplit(Running(active.value, now), ws, ws, ws);
      }
    } else {
      DaysCoverSpan(logs, active, ws, now, k - 1);
      assert s[..k - 1] == seq(k - 1, i => DayMs(logs, active, ws, i, now));
      LogsMsSplit(logs, ws, DayStart(ws, k - 1), DayStart(ws, k));
      if Counted(active) {
        ClipSplit(Running(active.value, now), ws, DayStart(ws, k - 1), DayStart(ws, k));
      }
    }
  }

  /** Flooring each day on its own loses less than a second per day against the whole week:
      `totalWeekSec` is the week's time in seconds, short by at most seven. */
  lemma {:induction false} WeekSecBounds(logs: seq<Log>, active: Option<Session>, ws: int, now: int, k: nat)
    ensures var total := Sum(seq(k, i => DaySec(logs, active, ws, i, now)));
      var ms := LogsMs(logs, ws, DayStart(ws, k)) + ActiveMs(active, ws, DayStart(ws, k), now);
      total * 1000 <= ms < total * 1000 + 1000 * k + 1000
  {
    DaysCoverSpan(logs, active, ws, now, k);
    if k > 0 {
      WeekSecBounds(logs, active, ws, now, k - 1);
      DaysCoverSpan(logs, active, ws, now, k - 1);
      var secs := seq(k, i => DaySec(logs, active, ws, i, now));
      var mss := seq(k, i => DayMs(logs, active, ws, i, now));
      assert secs[..k - 1] == seq(k - 1, i => DaySec(logs, active, ws, i, now));
      assert mss[..k - 1] == seq(k - 1, i => DayMs(logs, active, ws, i, now));
    } else {
      LogsMsSplit(logs, ws, ws, ws);
      if Counted(active) {
        ClipSplit(Running(active.value, now), ws, ws, ws);
      }
    }
  }

  // ---------------------------------------------------------------------------------------
  // Seconds per site

  /** `addDomain`: an entry without a site or without a whole second is skipped. */
  function AddDomain(a: seq<(string, int)>, domain: string, seconds: int): seq<(string, int)>
  {
    if domain == [] || seconds <= 0 then a else AddTo(a, domain, seconds)
  }

  /** The per-site map after the loop over the stored entries, in first-met order. */
  function LogDomains(logs: seq<Log>, ws: int): seq<(string, int)>
  {
    if logs == [] then []
    else
      var l := logs[|logs| - 1];
      AddDomain(LogDomains(logs[..|logs| - 1], ws), l.domain, ClipLen(l, ws, WeekEnd(ws)) / 1000)
  }

  /** The per-site map of the report: the stored entries, then the running session. */
  function PopupDomains(logs: seq<Log>, active: Option<Session>, ws: int, now: int): seq<(string, int)>
  {
    var a := LogDomains(logs, ws);
    if Counted(active)
    then AddDomain(a, active.value.domain, ClipLen(Running(active.value, now), ws, WeekEnd(ws)) / 1000)
    else a
  }

  /** Every bucket of an association list is named and positive. */
  predicate NamedPositive(a: seq<(string, int)>)
  {
    forall i :: 0 <= i < |a| ==> a[i].0 != [] && a[i].1 > 0
  }

  lemma {:induction false} AddToNamedPositive(a: seq<(string, int)>, k: string, m: int)
    requires NamedPositive(a) && k != [] && m > 0
    ensures NamedPositive(AddTo(a, k, m))
  {
    if a != [] && a[0].0 != k {
      AddToNamedPositive(a[1..], k, m);
    }
  }

  lemma AddDomainFacts(a: seq<(string, int)>, domain: string, seconds: int)
    requires KeysUnique(a) && NamedPositive(a)
    ensures KeysUnique(AddDomain(a, domain, seconds)) && NamedPositive(AddDomain(a, domain, seconds))
  {
    if domain != [] && seconds > 0 {
      AddToUnique(a, domain, seconds);
      AddToNamedPositive(a, domain, seconds);
    }
  }

  /** The per-site map of the report is a map (no site twice) of named sites with a positive
      number of seconds each. */
  lemma {:induction false} PopupDomainsFacts(logs: seq<Log>, active: Option<Session>, ws: int, now: int)
    ensures KeysUnique(PopupDomains(logs, active, ws, now))
    ensures NamedPositive(PopupDomains(logs, active, ws, now))
  {
    LogDomainsFacts(logs, ws);
    if Counted(active) {
      AddDomainFacts(LogDomains(logs, ws), active.value.domain,
                     ClipLen(Running(active.value, now), ws, WeekEnd(ws)) / 1000);
    }
  }

  lemma {:induction false} LogDomainsFacts(logs: seq<Log>, ws: int)
    ensures KeysUnique(LogDomains(logs, ws)) && NamedPositive(LogDomains(logs, ws))
  {
    if logs != [] {
      var l := logs[|logs| - 1];
      LogDomainsFacts(logs[..|logs| - 1], ws);
      AddDomainFacts(LogDomains(logs[..|logs| - 1], ws), l.domain, ClipLen(l, ws, WeekEnd(ws)) / 1000);
    }
  }

  /** The result of `computeWeekAggregates`. */
  datatype WeekReport = WeekReport(
    weekStart: int, weekEnd: int, perDay: seq<int>, totalWeekSec: int,
    topDomain: string, topSec: int)

  /** The per-site loop of `computeWeekAggregates`. */
  method FillDomains(logs: seq<Log>, active: Option<Session>, ws: int, now: int)
    returns (perDomain: seq<(string, int)>)
    ensures perDomain == PopupDomains(logs, active, ws, now)
  {
    var weekEnd := WeekEnd(ws);
    perDomain := [];
    var i := 0;
    while i < |logs|
      invariant 0 <= i <= |logs|
      invariant perDomain == LogDomains(logs[..i], ws)
    {
      assert logs[..i + 1][..i] == logs[..i];
      var l := logs[i];
      if l.start.Ms? && l.end.Ms? {
        var s := Max(l.start.ms, ws);
        var e := Min(l.end.ms, weekEnd);
        if e > s {
          perDomain := AddDomain(perDomain, l.domain, (e - s) / 1000);
        }
      }
      i := i + 1;
    }
    assert logs[..i] == logs;
    if active.Some? && active.value.start != 0 && active.value.domain != [] {
      var s := Max(active.value.start, ws);
      var e := Min(now, weekEnd);
      if e > s {
        perDomain := AddDomain(perDomain, active.value.domain, (e - s) / 1000);
      }
    }
  }

  /** `computeWeekAggregates` for the week starting at ws: seven day slots of whole seconds,
      their total, and the first site with the most seconds ("—" and 0 when there is none). */
  method ComputeWeekAggregates(logs: seq<Log>, active: Option<Session>, ws: int, now: int)
    returns (r: WeekReport)
    ensures r.weekStart == ws && r.weekEnd == WeekEnd(ws)
    ensures |r.perDay| == 7
    ensures forall i :: 0 <= i < 7 ==> r.perDay[i] == DaySec(logs, active, ws, i, now)
    ensures r.totalWeekSec == Sum(r.perDay)
    ensures (r.topDomain, r.topSec) == TopOf(PopupDomains(logs, active, ws, now))
  {
    var perDay: seq<int> := [];
    for i := 0 to 7
      invariant |perDay| == i
      invariant forall j :: 0 <= j < i ==> perDay[j] == DaySec(logs, active, ws, j, now)
    {
      var sec := SumInRange(logs, active, DayStart(ws, i), DayStart(ws, i) + DAY_MS, now);
      perDay := perDay + [sec];
    }
    var perDomain := FillDomains(logs, active, ws, now);
    var topDomain, topSec := FindTop(perDomain);
    r := WeekReport(ws, WeekEnd(ws), perDay, Sum(perDay), topDomain, topSec);
  }

  /** The report's week total: every second of the week's seven day slots counted once, less
      under a second per slot lost to flooring each day. */
  lemma WeekTotalMeaning(logs: seq<Log>, active: Option<Session>, ws: int, now: int)
    ensures var total := Sum(seq(7, i => DaySec(logs, active, ws, i, now)));
      var ms := LogsMs(logs, ws, ws + WEEK_MS) + ActiveMs(active, ws, ws + WEEK_MS, now);
      total * 1000 <= ms < total * 1000 + 8000
  {
    WeekSecBounds(logs, active, ws, now, 7);
  }

  // ---------------------------------------------------------------------------------------
  // Score band

  /** `clamp(n, min, max)`. */
  function Clamp(n: int, lo: int, hi: int): (r: int)
    requires lo <= hi
    ensures lo <= r <= hi
    ensures lo <= n <= hi ==> r == n
  {
    Max(lo, Min(hi, n))
  }

  /** The popup's last score piece, `clamp(Math.round(50 - (h - 20) * 2), 20, 100)`, is the
      background's. */
  lemma PopupScoreSame(hours: real)
    requires hours > 20.0
    ensures CalcAiScore(hours) == Clamp(Round(50.0 - (hours - 20.0) * 2.0), 20, 100)
  {
  }

  /** `scoreBand`: the style of a score. */
  function ScoreBand(score: int): string
  {
    if score >= 80 then "text-ok" else if score >= 50 then "text-warn" else "text-danger"
  }

  /** The popup's colour bands are the portfolio's badges. */
  lemma ScoreBandIsBadge(score: int)
    ensures ScoreBand(score) == "text-ok" <==> Badge(score) == "Healthy"
    ensures ScoreBand(score) == "text-warn" <==> Badge(score) == "Power User"
    ensures ScoreBand(score) == "text-danger" <==> Badge(score) == "Super User"
  {
  }

  // ---------------------------------------------------------------------------------------
  // The log table

  const PAGE_SIZE := 200

  /** Number of rows shown once pages 1..page are rendered. */
  function PageEnd(len: nat, page: nat): (e: nat)
    ensures e <= len
    ensures e == len <==> page * PAGE_SIZE >= len
  {
    Min(len, page * PAGE_SIZE)
  }

  /** The comparator `(a, b) => b.start - a.start`: newest first. */
  predicate Newer(a: Log, b: Log)
  {
    StartKey(a) > StartKey(b)
  }

  /** A filter bound is in force when given and non-zero (`if (from)`). */
  predicate InForce(bound: Option<int>)
  {
    bound.Some? && bound.value != 0
  }

  predicate AfterFrom(l: Log, from: Option<int>)
  {
    !InForce(from) || (l.start.Ms? && l.start.ms >= from.value)
  }

  predicate BeforeTo(l: Log, to: Option<int>)
  {
    !InForce(to) || (l.end.Ms? && l.end.ms <= to.value)
  }

  predicate SiteHas(l: Log, term: string)
  {
    term == [] || Contains(Lower(l.domain), term)
  }

  /** The test of `rows.filter(l => l.start >= from)`. */
  function FromTest(from: Option<int>): Log -> bool
  {
    l => AfterFrom(l, from)
  }

  /** The test of `rows.filter(l => l.end <= to)`. */
  function ToTest(to: Option<int>): Log -> bool
  {
    l => BeforeTo(l, to)
  }

  /** The test of `rows.filter(l => (l.domain || "").toLowerCase().includes(term))`. */
  function SiteTest(term: string): Log -> bool
  {
    l => SiteHas(l, term)
  }

  /** The rows `refreshLogs` keeps: all entries newest first, and with `applyFilterNow` only
      those starting at or after `from`, ending at or before `to` (the end of the chosen day),
      and whose site contains the trimmed, lower-cased filter text. */
  function Rows(logs: seq<Log>, applyFilterNow: bool, from: Option<int>, to: Option<int>, filter: string)
    : seq<Log>
  {
    var rows := SortBy(logs, Newer);
    if !applyFilterNow then rows
    else Filter(Filter(Filter(rows, FromTest(from)), ToTest(to)), SiteTest(Lower(Trim(filter))))
  }

  /** The table rows are newest first, and a row is in the table exactly when it is a stored
      entry that passes the filters in force. */
  lemma RowsMeaning(logs: seq<Log>, applyFilterNow: bool, from: Option<int>, to: Option<int>, filter: string)
    ensures var rows := Rows(logs, applyFilterNow, from, to, filter);
      forall i, j :: 0 <= i < j < |rows| ==> StartKey(rows[i]) >= StartKey(rows[j])
    ensures var rows := Rows(logs, applyFilterNow, from, to, filter);
      var term := Lower(Trim(filter));
      forall l :: l in rows <==>
        l in logs && (applyFilterNow ==> AfterFrom(l, from) && BeforeTo(l, to) && SiteHas(l, term))
    ensures !applyFilterNow ==> multiset(Rows(logs, applyFilterNow, from, to, filter)) == multiset(logs)
  {
    NewestFirst(logs);
    if applyFilterNow {
      FilteredRows(SortBy(logs, Newer), from, to, Lower(Trim(filter)));
    }
  }

  /** The three filters keep the newest-first order and keep exactly the entries passing all three. */
  lemma FilteredRows(sorted: seq<Log>, from: Option<int>, to: Option<int>, term: string)
    requires forall i, j :: 0 <= i < j < |sorted| ==> StartKey(sorted[i]) >= StartKey(sorted[j])
    ensures var c := Filter(Filter(Filter(sorted, FromTest(from)), ToTest(to)), SiteTest(term));
      && (forall i, j :: 0 <= i < j < |c| ==> StartKey(c[i]) >= StartKey(c[j]))
      && (forall l :: l in c <==> l in sorted && AfterFrom(l, from) && BeforeTo(l, to) && SiteHas(l, term))
  {
    var a := Filter(sorted, FromTest(from));
    var b := Filter(a, ToTest(to));
    var c := Filter(b, SiteTest(term));
    SubsequenceSorted(sorted, a, FromTest(from));
    SubsequenceSorted(a, b, ToTest(to));
    SubsequenceSorted(b, c, SiteTest(term));
    forall l ensures l in c <==> l in sorted && AfterFrom(l, from) && BeforeTo(l, to) && SiteHas(l, term) {
      assert FromTest(from)(l) == AfterFrom(l, from);
      assert ToTest(to)(l) == BeforeTo(l, to);
      assert SiteTest(term)(l) == SiteHas(l, term);
    }
  }

  /** `Newer` is a comparator JavaScript can sort with. */
  lemma NewerOrder()
    ensures StrictWeakOrder(Newer)
  {
  }

  /** Sorting newest first orders by start and keeps every entry. */
  lemma NewestFirst(logs: seq<Log>)
    ensures forall i, j :: 0 <= i < j < |SortBy(logs, Newer)| ==>
      StartKey(SortBy(logs, Newer)[i]) >= StartKey(SortBy(logs, Newer)[j])
    ensures forall l :: l in SortBy(logs, Newer) <==> l in logs
    ensures multiset(SortBy(logs, Newer)) == multiset(logs)
  {
    NewerOrder();
    OrderOnAll(logs, Newer);
    SortBySorted(logs, Newer);
    var sorted := SortBy(logs, Newer);
    forall l ensures l in sorted <==> l in logs {
      assert l in sorted <==> l in multiset(sorted);
      assert l in logs <==> l in multiset(logs);
    }
  }

  /** Filtering keeps the newest-first order. */
  lemma {:induction false} SubsequenceSorted(s: seq<Log>, r: seq<Log>, p: Log -> bool)
    requires r == Filter(s, p)
    requires forall i, j :: 0 <= i < j < |s| ==> StartKey(s[i]) >= StartKey(s[j])
    ensures forall i, j :: 0 <= i < j < |r| ==> StartKey(r[i]) >= StartKey(r[j])
  {
    if s != [] {
      var p0 := s[..|s| - 1];
      SubsequenceSorted(p0, Filter(p0, p), p);
      var rest := Filter(p0, p);
      if p(s[|s| - 1]) {
        forall i | 0 <= i < |rest| ensures StartKey(rest[i]) >= StartKey(s[|s| - 1]) {
          assert rest[i] in p0;
          var k :| 0 <= k < |p0| && p0[k] == rest[i];
        }
      }
    }
  }

  /** The paged log table: `_allRows`, `_page`, the rows rendered into the table body, and
      whether the "load more" button shows. */
  class LogPager {
    var allRows: seq<Log>
    var page: nat
    var shown: seq<Log>
    var loadMoreVisible: bool

    /** Pages 1..page are rendered, and the button shows exactly while rows remain. */
    ghost predicate Valid()
      reads this
    {
      && page >= 1
      && shown == allRows[..PageEnd(|allRows|, page)]
      && loadMoreVisible == (PageEnd(|allRows|, page) < |allRows|)
    }

    constructor ()
      ensures allRows == [] && page == 1 && Valid()
    {
      allRows, page, shown, loadMoreVisible := [], 1, [], false;
    }

    /** `renderLogsPage`: appends rows [(page - 1) * 200, min(len, page * 200)) to the table
        and shows "load more" iff rows remain after them. */
    method RenderLogsPage()
      requires page >= 1 && shown == allRows[..PageEnd(|allRows|, page - 1)]
      modifies this
      ensures allRows == old(allRows) && page == old(page)
      ensures shown == old(shown) + allRows[|old(shown)|..PageEnd(|allRows|, page)]
      ensures loadMoreVisible == (PageEnd(|allRows|, page) < |allRows|)
      ensures Valid()
    {
      var start := (page - 1) * PAGE_SIZE;
      var end := Min(|allRows|, start + PAGE_SIZE);
      var i := start;
      while i < end
        invariant allRows == old(allRows) && page == old(page)
        invariant start < end ==> start <= i <= end && shown == allRows[..i]
        invariant start >= end ==> i == start && shown == old(shown)
      {
        assert allRows[..i + 1] == allRows[..i] + [allRows[i]];
        shown := shown + [allRows[i]];
        i := i + 1;
      }
      loadMoreVisible := end < |allRows|;
    }

    /** The "load more" click: the next page is rendered below the shown ones. */
    method LoadMore()
      requires Valid()
      modifies this
      ensures allRows == old(allRows) && page == old(page) + 1
      ensures old(shown) <= shown
      ensures !loadMoreVisible <==> shown == allRows
      ensures Valid()
    {
      page := page + 1;
      RenderLogsPage();
    }

    /** `refreshLogs`: the rows are rebuilt from the stored entries and the first page shows
        (an empty table shows no button). */
    method RefreshLogs(logs: seq<Log>, applyFilterNow: bool, from: Option<int>, to: Option<int>, filter: string)
      modifies this
      ensures allRows == Rows(logs, applyFilterNow, from, to, filter)
      ensures page == 1 && Valid()
    {
      var rows := Rows(logs, applyFilterNow, from, to, filter);
      allRows, page, shown := rows, 1, [];
      assert PageEnd(|rows|, 0) == 0 && rows[..0] == [];
      if |rows| == 0 {
        loadMoreVisible := false;
      } else {
        RenderLogsPage();
      }
    }
  }

  // ---------------------------------------------------------------------------------------
  // Pause for today

  /** Minutes requested by "pause for today": `Math.max(1, Math.floor((endOfDay - now) / 60000))`. */
  function PauseTodayMinutes(endOfDay: int, now: int): (m: int)
    ensures m >= 1
    ensures endOfDay - now >= 60000 ==> m * 60000 <= endOfDay - now < m * 60000 + 60000
    ensures endOfDay - now < 60000 ==> m == 1
  {
    Max(1, (endOfDay - now) / 60000)
  }

  /** The pause this asks for ends within the day, or a minute from now when less than a
      minute of the day is left. */
  lemma PauseTodayEnds(endOfDay: int, now: int)
    ensures var until := now + PauseTodayMinutes(endOfDay, now) * 60000;
      until <= Max(endOfDay, now + 60000) && until > endOfDay - 60000
  {
  }
}
