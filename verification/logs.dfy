/** The stored activity log and `compactLogs`: malformed entries are dropped, the rest are
    sorted by start time, and neighbouring entries of one site separated by a short gap are
    merged into one. */
module Logs {
  import opened Common
  import opened Sorting

  /** A stored time field: a number of milliseconds, or anything else (missing, a string, NaN). */
  datatype Stamp = Ms(ms: int) | NotNumber

  /** One stored log entry `{start, end, domain}`; a missing domain is the empty string. */
  datatype Log = Log(start: Stamp, end: Stamp, domain: string)

  /** `state.active`: the tab being timed, its site and when timing started. */
  datatype Session = Session(tabId: int, domain: string, start: int)

  /** `MERGE_GAP_MS`: the largest gap, two minutes, that merging bridges. */
  const MERGE_GAP_MS := 120000

  /** Both times are numbers and the entry does not end before it starts. */
  predicate WellFormed(l: Log)
  {
    l.start.Ms? && l.end.Ms? && l.end.ms >= l.start.ms
  }

  predicate AllWellFormed(s: seq<Log>)
  {
    forall i :: 0 <= i < |s| ==> WellFormed(s[i])
  }

  /** `l.start || 0` and `l.end || 0`. */
  function StartKey(l: Log): int { if l.start.Ms? then l.start.ms else 0 }

  function EndKey(l: Log): int { if l.end.Ms? then l.end.ms else 0 }

  /** The sort comparator `(a, b) => (a.start || 0) - (b.start || 0)`, as "strictly before". */
  predicate StartsBefore(a: Log, b: Log)
  {
    StartKey(a) < StartKey(b)
  }

  /** The merge test: the same site, and the next entry starts no earlier than the current one
      ends and at most `MERGE_GAP_MS` after it. */
  predicate CanMerge(cur: Log, nxt: Log)
  {
    nxt.domain == cur.domain && 0 <= StartKey(nxt) - EndKey(cur) <= MERGE_GAP_MS
  }

  /** The current entry after absorbing the next: its end becomes the later of the two ends. */
  function Absorb(cur: Log, nxt: Log): (m: Log)
    ensures m.start == cur.start && m.domain == cur.domain
    ensures EndKey(m) >= EndKey(cur) && EndKey(m) >= EndKey(nxt)
    ensures EndKey(m) == EndKey(cur) || EndKey(m) == EndKey(nxt)
  {
    cur.(end := Ms(Max(EndKey(cur), EndKey(nxt))))
  }

  /** The filter step: the well-formed entries in their original order. */
  function Keep(logs: seq<Log>): (r: seq<Log>)
    ensures |r| <= |logs| && AllWellFormed(r)
    ensures forall i :: 0 <= i < |logs| && WellFormed(logs[i]) ==> logs[i] in r
    ensures forall l :: l in r ==> l in logs
  {
    if logs == [] then []
    else if WellFormed(logs[0]) then [logs[0]] + Keep(logs[1..])
    else Keep(logs[1..])
  }

  /** The linear scan: `cur` is the entry being grown, `rest` the entries still to visit. */
  function Merge(cur: Log, rest: seq<Log>): (r: seq<Log>)
    ensures 1 <= |r| <= |rest| + 1
    ensures r[0].start == cur.start && r[0].domain == cur.domain
    decreases |rest|
  {
    if rest == [] then [cur]
    else if CanMerge(cur, rest[0]) then Merge(Absorb(cur, rest[0]), rest[1..])
    else [cur] + Merge(rest[0], rest[1..])
  }

  /** `compactLogs`: a list of at most one entry is returned as it is (not even filtered);
      otherwise the well-formed entries, stably sorted by start, are merged. */
  function Compact(logs: seq<Log>): seq<Log>
  {
    if |logs| <= 1 then logs
    else
      var arr := SortBy(Keep(logs), StartsBefore);
      if arr == [] then [] else Merge(arr[0], arr[1..])
  }

  /** The loop of `compactLogs`, pushing to `out` and growing `cur` in place. */
  method CompactLogs(logs: seq<Log>) returns (out: seq<Log>)
    ensures out == Compact(logs)
  {
    if |logs| <= 1 {
      return logs;
    }
    var arr := SortBy(Keep(logs), StartsBefore);
    if |arr| == 0 {
      return [];
    }
    out := [];
    var cur := arr[0];
    var i := 1;
    while i < |arr|
      invariant 1 <= i <= |arr|
      invariant out + Merge(cur, arr[i..]) == Merge(arr[0], arr[1..])
    {
      var nxt := arr[i];
      assert arr[i..][0] == nxt && arr[i..][1..] == arr[i + 1..];
      var sameDomain := nxt.domain == cur.domain;
      var gap := StartKey(nxt) - EndKey(cur);
      if sameDomain && gap >= 0 && gap <= MERGE_GAP_MS {
        cur := cur.(end := Ms(Max(EndKey(cur), EndKey(nxt))));
      } else {
        out := out + [cur];
        cur := nxt;
      }
      i := i + 1;
    }
    out := out + [cur];
  }

  // ---------------------------------------------------------------------------------------
  // Properties of the scan

  /** No two neighbours of s could be merged. */
  predicate NoMergeablePair(s: seq<Log>)
  {
    forall k :: 0 <= k < |s| - 1 ==> !CanMerge(s[k], s[k + 1])
  }

  /** o covers e: the same site, and e's interval lies inside o's. */
  predicate Covers(o: Log, e: Log)
  {
    o.domain == e.domain && StartKey(o) <= StartKey(e) && EndKey(e) <= EndKey(o)
  }

  /** Every entry of rest starts no earlier than cur, and rest is in start order. */
  ghost predicate ScanReady(cur: Log, rest: seq<Log>)
  {
    && WellFormed(cur) && AllWellFormed(rest)
    && SortedBy(rest, StartsBefore)
    && forall j :: 0 <= j < |rest| ==> StartKey(cur) <= StartKey(rest[j])
  }

  lemma {:induction false} MergeShape(cur: Log, rest: seq<Log>)
    requires ScanReady(cur, rest)
    ensures var r := Merge(cur, rest);
      AllWellFormed(r) && SortedBy(r, StartsBefore) && NoMergeablePair(r)
      && forall k :: 0 <= k < |r| ==> StartKey(cur) <= StartKey(r[k])
    decreases |rest|
  {
    if rest != [] {
      var tail := rest[1..];
      if CanMerge(cur, rest[0]) {
        MergeShape(Absorb(cur, rest[0]), tail);
      } else {
        MergeShape(rest[0], tail);
        assert Merge(cur, rest) == [cur] + Merge(rest[0], tail);
        PrependShape(cur, Merge(rest[0], tail));
      }
    }
  }

  /** Putting an entry that cannot absorb the head in front of a scanned list keeps its shape. */
  lemma PrependShape(cur: Log, m: seq<Log>)
    requires m != [] && WellFormed(cur) && AllWellFormed(m) && !CanMerge(cur, m[0])
    requires SortedBy(m, StartsBefore) && NoMergeablePair(m)
    requires forall k :: 0 <= k < |m| ==> StartKey(cur) <= StartKey(m[k])
    ensures var r := [cur] + m;
      AllWellFormed(r) && SortedBy(r, StartsBefore) && NoMergeablePair(r)
      && forall k :: 0 <= k < |r| ==> StartKey(cur) <= StartKey(r[k])
  {
    var r := [cur] + m;
    forall i, j | 0 <= i < j < |r| ensures !StartsBefore(r[j], r[i]) {
      if i > 0 {
        assert r[i] == m[i - 1] && r[j] == m[j - 1];
      }
    }
    forall k | 0 <= k < |r| - 1 ensures !CanMerge(r[k], r[k + 1]) {
      if k > 0 {
        assert r[k] == m[k - 1] && r[k + 1] == m[k];
      }
    }
  }

  /** Nothing is lost: cur and every entry of rest lie inside some entry of the result. */
  lemma {:induction false} MergeCovers(cur: Log, rest: seq<Log>)
    requires ScanReady(cur, rest)
    ensures Covers(Merge(cur, rest)[0], cur)
    ensures forall j :: 0 <= j < |rest| ==>
      exists k :: 0 <= k < |Merge(cur, rest)| && Covers(Merge(cur, rest)[k], rest[j])
    decreases |rest|
  {
    if rest != [] {
      var tail := rest[1..];
      if CanMerge(cur, rest[0]) {
        var c := Absorb(cur, rest[0]);
        MergeCovers(c, tail);
        var r := Merge(c, tail);
        assert Merge(cur, rest) == r;
        forall j | 0 <= j < |rest|
          ensures exists k :: 0 <= k < |r| && Covers(r[k], rest[j])
        {
          if j == 0 {
            assert Covers(r[0], rest[0]);
          } else {
            assert rest[j] == tail[j - 1];
          }
        }
      } else {
        MergeCovers(rest[0], tail);
        var m := Merge(rest[0], tail);
        var r := [cur] + m;
        assert Merge(cur, rest) == r;
        forall j | 0 <= j < |rest|
          ensures exists k :: 0 <= k < |r| && Covers(r[k], rest[j])
        {
          var k: int;
          if j == 0 {
            k := 0;
          } else {
            assert rest[j] == tail[j - 1];
            k :| 0 <= k < |m| && Covers(m[k], tail[j - 1]);
          }
          assert r[k + 1] == m[k];
        }
      }
    }
  }

  /** A list with no mergeable neighbours is left as it is by the scan. */
  lemma {:induction false} MergeIdentity(s: seq<Log>)
    requires s != [] && NoMergeablePair(s)
    ensures Merge(s[0], s[1..]) == s
    decreases |s|
  {
    if |s| > 1 {
      var t := s[1..];
      assert NoMergeablePair(t) by {
        forall k | 0 <= k < |t| - 1 ensures !CanMerge(t[k], t[k + 1]) {
          assert t[k] == s[k + 1] && t[k + 1] == s[k + 2];
        }
      }
      MergeIdentity(t);
      assert t[1..] == s[2..];
      assert s == [s[0]] + t;
    }
  }

  lemma StartOrder()
    ensures StrictWeakOrder(StartsBefore)
  {
  }

  /** The sorted, filtered list the scan runs over is ready for it. */
  lemma {:induction false} SortedReady(logs: seq<Log>)
    requires SortBy(Keep(logs), StartsBefore) != []
    ensures var arr := SortBy(Keep(logs), StartsBefore);
      ScanReady(arr[0], arr[1..]) && arr == [arr[0]] + arr[1..]
  {
    var arr := SortBy(Keep(logs), StartsBefore);
    SortedKept(logs);
    SplitReady(arr);
  }

  /** The filtered, sorted list holds only well-formed entries, in start order. */
  lemma SortedKept(logs: seq<Log>)
    ensures var arr := SortBy(Keep(logs), StartsBefore);
      AllWellFormed(arr) && SortedBy(arr, StartsBefore)
  {
    var arr := SortBy(Keep(logs), StartsBefore);
    StartOrder();
    OrderOnAll(Keep(logs), StartsBefore);
    SortBySorted(Keep(logs), StartsBefore);
    forall i | 0 <= i < |arr| ensures WellFormed(arr[i]) {
      assert arr[i] in multiset(arr);
      assert arr[i] in multiset(Keep(logs));
    }
  }

  /** A non-empty, well-formed list in start order splits into a scan start and its rest. */
  lemma SplitReady(arr: seq<Log>)
    requires arr != [] && AllWellFormed(arr) && SortedBy(arr, StartsBefore)
    ensures ScanReady(arr[0], arr[1..]) && arr == [arr[0]] + arr[1..]
  {
    var tail := arr[1..];
    forall j | 0 <= j < |tail| ensures StartKey(arr[0]) <= StartKey(tail[j]) && WellFormed(tail[j]) {
      assert tail[j] == arr[j + 1];
    }
    assert SortedBy(tail, StartsBefore) by {
      forall i, j | 0 <= i < j < |tail| ensures !StartsBefore(tail[j], tail[i]) {
        assert tail[i] == arr[i + 1] && tail[j] == arr[j + 1];
      }
    }
  }

  /** What `compactLogs` returns for two or more entries: only well-formed entries, in start
      order, never more entries than it was given, with no neighbours left that could still be
      merged, and every well-formed input entry lying inside an output entry of the same site. */
  lemma {:induction false} CompactShape(logs: seq<Log>)
    requires |logs| > 1
    ensures var r := Compact(logs);
      && |r| <= |logs| && AllWellFormed(r) && SortedBy(r, StartsBefore) && NoMergeablePair(r)
      && forall i :: 0 <= i < |logs| && WellFormed(logs[i]) ==>
           exists k :: 0 <= k < |r| && Covers(r[k], logs[i])
  {
    var arr := SortBy(Keep(logs), StartsBefore);
    InputsKept(logs);
    if arr != [] {
      SortedReady(logs);
      MergeShape(arr[0], arr[1..]);
      ScanCoversAll(arr, Merge(arr[0], arr[1..]));
    }
  }

  /** Every well-formed input entry reaches the sorted list. */
  lemma InputsKept(logs: seq<Log>)
    ensures forall i :: 0 <= i < |logs| && WellFormed(logs[i]) ==> logs[i] in SortBy(Keep(logs), StartsBefore)
  {
    var arr := SortBy(Keep(logs), StartsBefore);
    forall i | 0 <= i < |logs| && WellFormed(logs[i]) ensures logs[i] in arr {
      assert logs[i] in multiset(Keep(logs));
    }
  }

  /** Every entry of the scanned list lies inside an entry of the scan's output. */
  lemma ScanCoversAll(arr: seq<Log>, r: seq<Log>)
    requires arr != [] && ScanReady(arr[0], arr[1..]) && r == Merge(arr[0], arr[1..])
    ensures forall e :: e in arr ==> exists k :: 0 <= k < |r| && Covers(r[k], e)
  {
    MergeCovers(arr[0], arr[1..]);
    forall e | e in arr ensures exists k :: 0 <= k < |r| && Covers(r[k], e) {
      var j :| 0 <= j < |arr| && arr[j] == e;
      if j > 0 {
        assert arr[1..][j - 1] == e;
      } else {
        assert Covers(r[0], e);
      }
    }
  }

  /** Compacting twice is compacting once. */
  lemma {:induction false} CompactIdempotent(logs: seq<Log>)
    ensures Compact(Compact(logs)) == Compact(logs)
  {
    var r := Compact(logs);
    if |logs| > 1 && |r| > 1 {
      CompactShape(logs);
      KeepAll(r);
      SortByIdentity(r, StartsBefore);
      MergeIdentity(r);
    }
  }

  /** Filtering a list of well-formed entries changes nothing. */
  lemma {:induction false} KeepAll(s: seq<Log>)
    requires AllWellFormed(s)
    ensures Keep(s) == s
  {
    if s != [] {
      KeepAll(s[1..]);
      assert s == [s[0]] + s[1..];
    }
  }

  /** The merge rule on two well-formed entries: the earlier-starting one absorbs the other
      exactly when `CanMerge` holds; otherwise both come back in start order. */
  lemma CompactTwo(a: Log, b: Log)
    requires WellFormed(a) && WellFormed(b)
    ensures StartKey(a) <= StartKey(b) ==>
      Compact([a, b]) == if CanMerge(a, b) then [Absorb(a, b)] else [a, b]
    ensures StartKey(b) < StartKey(a) ==>
      Compact([a, b]) == if CanMerge(b, a) then [Absorb(b, a)] else [b, a]
  {
    var s := [a, b];
    KeepAll(s);
    SortTwo(a, b);
    var arr := SortBy(s, StartsBefore);
    assert Compact(s) == Merge(arr[0], arr[1..]);
    if StartKey(b) < StartKey(a) {
      assert arr[1..] == [a];
      MergeTwo(b, a);
    } else {
      assert arr[1..] == [b];
      MergeTwo(a, b);
    }
  }

  /** The stable sort of two entries swaps them only when the second starts strictly earlier. */
  lemma SortTwo(a: Log, b: Log)
    ensures SortBy([a, b], StartsBefore) == if StartKey(b) < StartKey(a) then [b, a] else [a, b]
  {
    var s := [a, b];
    assert s[..1] == [a];
    SortOne(a);
    assert SortBy(s, StartsBefore) == Insert([a], b, StartsBefore);
    if StartKey(b) < StartKey(a) {
      assert [a][..0] == [];
      assert Insert([a], b, StartsBefore) == Insert([], b, StartsBefore) + [a];
    }
  }

  lemma SortOne(a: Log)
    ensures SortBy([a], StartsBefore) == [a]
  {
    assert [a][..0] == [];
  }

  /** The scan over one further entry: absorbed if it can be merged, kept behind otherwise. */
  lemma MergeTwo(x: Log, y: Log)
    ensures Merge(x, [y]) == if CanMerge(x, y) then [Absorb(x, y)] else [x, y]
  {
    assert [y][1..] == [];
  }

  /** Two visits to one site 50 ms apart become one entry. */
  lemma ShortGapExample()
    ensures Compact([Log(Ms(0), Ms(60000), "ai"), Log(Ms(60050), Ms(90000), "ai")])
      == [Log(Ms(0), Ms(90000), "ai")]
  {
    CompactTwo(Log(Ms(0), Ms(60000), "ai"), Log(Ms(60050), Ms(90000), "ai"));
  }

  /** 130 000 ms apart, they stay two. */
  lemma LongGapExample()
    ensures Compact([Log(Ms(0), Ms(60000), "ai"), Log(Ms(190000), Ms(200000), "ai")])
      == [Log(Ms(0), Ms(60000), "ai"), Log(Ms(190000), Ms(200000), "ai")]
  {
    CompactTwo(Log(Ms(0), Ms(60000), "ai"), Log(Ms(190000), Ms(200000), "ai"));
  }

  /** Overlapping visits are not merged: the gap is negative. */
  lemma OverlapExample()
    ensures Compact([Log(Ms(0), Ms(60000), "ai"), Log(Ms(30000), Ms(90000), "ai")])
      == [Log(Ms(0), Ms(60000), "ai"), Log(Ms(30000), Ms(90000), "ai")]
  {
    CompactTwo(Log(Ms(0), Ms(60000), "ai"), Log(Ms(30000), Ms(90000), "ai"));
  }

  /** Visits to different sites stay apart, and come back in start order. */
  lemma OtherSiteExample()
    ensures Compact([Log(Ms(60050), Ms(90000), "ai"), Log(Ms(0), Ms(60000), "bot")])
      == [Log(Ms(0), Ms(60000), "bot"), Log(Ms(60050), Ms(90000), "ai")]
  {
    CompactTwo(Log(Ms(60050), Ms(90000), "ai"), Log(Ms(0), Ms(60000), "bot"));
  }
}
