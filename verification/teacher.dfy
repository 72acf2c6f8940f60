/** The teacher page's record logic: turning any loaded JSON value into student rows
    (`normalizeToStudentRecords`), merging them by alias (`ingest`), the class statistics of
    `summarize` and of the class report, sorting and filtering of the table, the score
    histogram and CSV cell quoting. */
module Teacher {
  import opened Common
  import opened Text
  import opened Sorting
  import opened JsValue
  import opened Portfolio
  import Weekly

  /** One row of the class table; `raw` is the portfolio it was read from. */
  datatype Record = Record(alias: Value, score: Value, minutes: Value, top: Value, streak: Value, raw: Value)

  /** `Math.round(Number(v) || 0)`: always a whole number. */
  function RoundedOr0(v: Value): (r: Value)
    ensures r.Num? && r.n.Floor as real == r.n
    ensures r.n - 1.0 / 2.0 <= NumberOr0(v) < r.n + 1.0 / 2.0
  {
    Num(Round(NumberOr0(v)) as real)
  }

  /** `any && any.version === '0.1' && Array.isArray(any.students)`. */
  predicate IsClassAggregate(any: Value)
  {
    Truthy(any) && Get(any, "version") == Str("0.1") && Get(any, "students").Arr?
  }

  /** The totals object `{ minutes, by_domain }`. */
  function Totals(minutes: Value, byDomain: Value): (t: Value)
    ensures Get(t, "minutes") == minutes && Get(t, "by_domain") == byDomain
  {
    var fs := [("minutes", minutes), ("by_domain", byDomain)];
    FieldUnique(fs, 0, "minutes");
    FieldUnique(fs, 1, "by_domain");
    Obj(fs)
  }

  /** The portfolio a class-aggregate row stands for. */
  function ClassRaw(alias: Value, minutes: Value, byDomain: Value, score: Value, streak: Value): (raw: Value)
    ensures Truthy(raw) && Get(raw, "version") == Str("0.1") && Get(raw, "consent") == Bool(true)
    ensures Get(raw, "alias") == alias && Get(raw, "score") == score && Get(raw, "streak_weeks") == streak
    ensures Get(Get(raw, "totals"), "minutes") == minutes && Get(Get(raw, "totals"), "by_domain") == byDomain
  {
    var fs := [("version", Str("0.1")), ("alias", alias), ("consent", Bool(true)),
               ("totals", Totals(minutes, byDomain)), ("score", score), ("streak_weeks", streak)];
    FieldUnique(fs, 0, "version");
    FieldUnique(fs, 1, "alias");
    FieldUnique(fs, 2, "consent");
    FieldUnique(fs, 3, "totals");
    FieldUnique(fs, 4, "score");
    FieldUnique(fs, 5, "streak_weeks");
    Obj(fs)
  }

  /** The row built for one student `s` of a class aggregate, with the portfolio it stands for. */
  function ClassRow(s: Value): (r: Record)
    ensures Truthy(Get(s, "alias")) ==> r.alias == Get(s, "alias")
    ensures !Truthy(Get(s, "alias")) ==> r.alias == Str("student")
    ensures Truthy(Get(s, "top")) ==> r.top == Get(s, "top")
    ensures !Truthy(Get(s, "top")) ==> r.top == Str("—")
    ensures r.score == RoundedOr0(Get(s, "score")) && r.minutes == RoundedOr0(Get(s, "minutes"))
    ensures r.streak == RoundedOr0(Get(s, "streak"))
    ensures Get(r.raw, "consent") == Bool(true) && Get(r.raw, "alias") == r.alias
    ensures Get(r.raw, "score") == r.score && Get(r.raw, "streak_weeks") == r.streak
    ensures Get(Get(r.raw, "totals"), "minutes") == r.minutes
    ensures r.alias.Str? ==> Valid(r.raw)
  {
    var alias := Or(Get(s, "alias"), Str("student"));
    var minutes := RoundedOr0(Get(s, "minutes"));
    var score := RoundedOr0(Get(s, "score"));
    var streak := RoundedOr0(Get(s, "streak"));
    var top := Get(s, "top");
    var byDomain := if Truthy(top) && top != Str("—") then Obj([(ToText(top), minutes)]) else Obj([]);
    Record(alias, score, minutes, Or(top, Str("—")), streak, ClassRaw(alias, minutes, byDomain, score, streak))
  }

  /** The row's portfolio names the row's own top tool: the teacher's top-tool pick on it gives
      back the student's `top` string with the student's minutes, and none for '—' or no tool. */
  lemma ClassRowTopTool(s: Value)
    ensures var r := ClassRow(s); var top := Get(s, "top");
      if top.Str? && top != Str("—") && top != Str("") then TopToolOf(r.raw) == Some((top.s, r.minutes))
      else !Truthy(top) || top == Str("—") ==> TopToolOf(r.raw) == None
  {
    var r := ClassRow(s);
    var es := Entries(ByDomain(r.raw));
    var top := Get(s, "top");
    if top.Str? && top != Str("—") && top != Str("") {
      assert es == [(top.s, r.minutes)];
    }
  }

  /** The portfolio `toV01` rebuilds from an older export. */
  function V01(alias: Value, minutes: Value, byDomain: Value, score: Value, streak: Value,
               weekStart: Value, weekEnd: Value, friendly: Value): (norm: Value)
    ensures Truthy(norm) && Get(norm, "version") == Str("0.1") && Get(norm, "consent") == Bool(true)
    ensures Get(norm, "alias") == alias && Get(norm, "score") == score && Get(norm, "streak_weeks") == streak
    ensures Get(Get(norm, "totals"), "minutes") == minutes && Get(Get(norm, "totals"), "by_domain") == byDomain
  {
    var base := ClassRaw(alias, minutes, byDomain, score, streak).fields;
    var extra := [("week_start", weekStart), ("week_end", weekEnd), ("friendly", friendly)];
    FieldsAfter(base, extra, "version");
    FieldsAfter(base, extra, "alias");
    FieldsAfter(base, extra, "consent");
    FieldsAfter(base, extra, "totals");
    FieldsAfter(base, extra, "score");
    FieldsAfter(base, extra, "streak_weeks");
    Obj(base + extra)
  }

  /** `toV01`: a valid portfolio as it is; any other object (or array) rebuilt as a portfolio
      from the fields older exports used; null for everything else. */
  function ToV01(any: Value): (norm: Value)
    ensures Valid(any) ==> norm == any
    ensures !Valid(any) && Truthy(any) && (any.Obj? || any.Arr?) ==>
      && Get(norm, "version") == Str("0.1") && Get(norm, "consent") == Bool(true)
      && Get(Get(norm, "totals"), "minutes").Num? && Get(norm, "score").Num?
      && Truthy(Get(norm, "alias"))
    ensures !(Truthy(any) && (any.Obj? || any.Arr?)) ==> norm == Null
  {
    if Valid(any) then any
    else if Truthy(any) && (any.Obj? || any.Arr?) then
      var alias := Or(Or(Or(Get(any, "alias"), Get(any, "user")), Get(Get(any, "profile"), "alias")), Str("student"));
      var totals := Get(any, "totals");
      var minutes :=
        if Truthy(totals) && IsNumber(Get(totals, "minutes")) then Get(totals, "minutes")
        else if IsNumber(Get(any, "minutes")) then Get(any, "minutes")
        else Num(0.0);
      var byDomain := Or(Or(Get(totals, "by_domain"), Get(any, "by_domain")), Obj([]));
      var score := Num(NumberOr0(Get(any, "score")));
      var streak := Num(NumberOr0(Or(Or(Get(any, "streak_weeks"), Get(any, "streak")), Num(0.0))));
      var range := Get(any, "range");
      V01(alias, Num(NumberOr0(minutes)), Or(byDomain, Obj([])), score, streak,
        Or(Or(Get(any, "week_start"), Get(range, "start")), Str("")),
        Or(Or(Get(any, "week_end"), Get(range, "end")), Str("")),
        Get(any, "friendly"))
    else Null
  }

  /** The single row of a (normalised) portfolio. */
  function PortfolioRow(norm: Value): (r: Record)
    ensures r.raw == norm && r.alias == Get(norm, "alias")
    ensures r.score == JsRound(Or(Get(norm, "score"), Num(0.0)))
    ensures r.minutes == JsRound(Or(Get(Get(norm, "totals"), "minutes"), Num(0.0)))
    ensures TopToolOf(norm) == None ==> r.top == Str("—")
    ensures TopToolOf(norm).Some? && TopToolOf(norm).value.0 != [] ==> r.top == Str(TopToolOf(norm).value.0)
    ensures Truthy(r.top)
  {
    var tt := TopToolOf(norm);
    Record(Get(norm, "alias"),
      JsRound(Or(Get(norm, "score"), Num(0.0))),
      JsRound(Or(Get(Get(norm, "totals"), "minutes"), Num(0.0))),
      if tt.Some? then Or(Str(tt.value.0), Str("—")) else Str("—"),
      Or(Get(norm, "streak_weeks"), Num(0.0)),
      norm)
  }

  /** `s.alias` on a null or undefined array element throws a TypeError. */
  predicate Throws(s: Value)
  {
    s == Null || s == Undefined
  }

  /** `normalizeToStudentRecords`; None when it throws (a class aggregate with a null or
      undefined student). */
  function NormalizeToStudentRecords(any: Value): Option<seq<Record>>
  {
    if IsClassAggregate(any) then
      var ss := Get(any, "students").items;
      if exists i :: 0 <= i < |ss| && Throws(ss[i]) then None
      else Some(seq(|ss|, i requires 0 <= i < |ss| => ClassRow(ss[i])))
    else
      var norm := ToV01(any);
      if Truthy(norm) then Some([PortfolioRow(norm)]) else Some([])
  }

  /** A class aggregate yields one row per student, in order, each built by `ClassRow`
      (rounded numbers, defaults 'student' and '—'); it throws exactly when a student is null
      or undefined. */
  lemma NormalizeClassAggregate(any: Value)
    requires IsClassAggregate(any)
    ensures var ss := Get(any, "students").items;
      && (NormalizeToStudentRecords(any) == None <==> exists i :: 0 <= i < |ss| && Throws(ss[i]))
      && (NormalizeToStudentRecords(any).Some? ==>
            var rs := NormalizeToStudentRecords(any).value;
            |rs| == |ss| && forall i :: 0 <= i < |ss| ==> rs[i] == ClassRow(ss[i]))
  {
  }

  /** Any other object (or array) yields exactly one row; a valid portfolio is kept as its raw
      data unchanged. */
  lemma NormalizeOtherObject(any: Value)
    requires !IsClassAggregate(any) && Truthy(any) && (any.Obj? || any.Arr?)
    ensures NormalizeToStudentRecords(any) == Some([PortfolioRow(ToV01(any))])
    ensures Valid(any) ==> NormalizeToStudentRecords(any).value[0].raw == any
  {
    var norm := ToV01(any);
    if !Valid(any) {
      assert Get(norm, "version") == Str("0.1");
    }
  }

  /** Anything that is not an object (a number, a string, true, null) yields no row. */
  lemma NormalizeNonObject(any: Value)
    requires !(Truthy(any) && (any.Obj? || any.Arr?))
    ensures NormalizeToStudentRecords(any) == Some([])
  {
  }

  // ---------------------------------------------------------------------------------------
  // ingest: records keyed by alias in a JavaScript Map (insertion-ordered)

  /** No two records share an alias. */
  predicate UniqueAliases(m: seq<Record>)
  {
    forall i, j :: 0 <= i < j < |m| ==> m[i].alias != m[j].alias
  }

  /** `byAlias.set(r.alias, r)` on the Map's entries: a known alias keeps its place and takes
      the new record; a new alias goes to the end. */
  function Put(m: seq<Record>, r: Record): (m': seq<Record>)
    ensures |m'| == |m| || |m'| == |m| + 1
  {
    if m == [] then [r]
    else if m[0].alias == r.alias then [r] + m[1..]
    else [m[0]] + Put(m[1..], r)
  }

  /** Setting every record of rs in turn. */
  function PutAll(m: seq<Record>, rs: seq<Record>): seq<Record>
  {
    if rs == [] then m else Put(PutAll(m, rs[..|rs| - 1]), rs[|rs| - 1])
  }

  lemma {:induction false} UniqueTail(m: seq<Record>)
    requires m != [] && UniqueAliases(m)
    ensures UniqueAliases(m[1..])
    ensures forall x :: x in m[1..] ==> x.alias != m[0].alias
  {
    forall x | x in m[1..] ensures x.alias != m[0].alias {
      var j :| 0 <= j < |m[1..]| && m[1..][j] == x;
      assert m[j + 1] == x;
    }
  }

  lemma {:induction false} UniqueCons(x: Record, t: seq<Record>)
    requires UniqueAliases(t) && forall y :: y in t ==> y.alias != x.alias
    ensures UniqueAliases([x] + t)
  {
    var m := [x] + t;
    forall i, j | 0 <= i < j < |m| ensures m[i].alias != m[j].alias {
      assert m[j] == t[j - 1];
      if i > 0 {
        assert m[i] == t[i - 1];
      } else {
        assert t[j - 1] in t;
      }
    }
  }

  /** On a map (no alias twice), setting r leaves r and every record of another alias, and
      keeps the aliases unique. */
  lemma {:induction false} PutMembers(m: seq<Record>, r: Record)
    requires UniqueAliases(m)
    ensures forall x :: x in Put(m, r) <==> x == r || (x in m && x.alias != r.alias)
    ensures UniqueAliases(Put(m, r))
  {
    if m != [] {
      UniqueTail(m);
      if m[0].alias == r.alias {
        UniqueCons(r, m[1..]);
        assert forall x :: x in m <==> x == m[0] || x in m[1..];
      } else {
        PutMembers(m[1..], r);
        UniqueCons(m[0], Put(m[1..], r));
        assert forall x :: x in m <==> x == m[0] || x in m[1..];
      }
    }
  }

  /** rs[i] is the last record of rs with its alias. */
  predicate LastOfAlias(rs: seq<Record>, i: int)
    requires 0 <= i < |rs|
  {
    forall j :: i < j < |rs| ==> rs[j].alias != rs[i].alias
  }

  predicate HasAlias(rs: seq<Record>, a: Value)
  {
    exists j :: 0 <= j < |rs| && rs[j].alias == a
  }

  /** x is set by rs and not overwritten by a later record of rs with the same alias. */
  predicate Survives(rs: seq<Record>, x: Record)
  {
    exists i :: 0 <= i < |rs| && rs[i] == x && LastOfAlias(rs, i)
  }

  lemma SurvivesStep(rs: seq<Record>, x: Record)
    requires rs != []
    ensures var p, r := rs[..|rs| - 1], rs[|rs| - 1];
      Survives(rs, x) <==> x == r || (Survives(p, x) && x.alias != r.alias)
  {
    var p, r := rs[..|rs| - 1], rs[|rs| - 1];
    if x == r {
      assert LastOfAlias(rs, |rs| - 1);
    }
    if Survives(p, x) && x.alias != r.alias {
      var i :| 0 <= i < |p| && p[i] == x && LastOfAlias(p, i);
      assert rs[i] == x && LastOfAlias(rs, i);
    }
    if Survives(rs, x) && x != r {
      var i :| 0 <= i < |rs| && rs[i] == x && LastOfAlias(rs, i);
      assert i < |p| && p[i] == x && LastOfAlias(p, i);
    }
  }

  lemma HasAliasStep(rs: seq<Record>, a: Value)
    requires rs != []
    ensures HasAlias(rs, a) <==> HasAlias(rs[..|rs| - 1], a) || rs[|rs| - 1].alias == a
  {
    var p := rs[..|rs| - 1];
    if HasAlias(p, a) {
      var j :| 0 <= j < |p| && p[j].alias == a;
      assert rs[j].alias == a;
    }
  }

  /** Setting a batch of records: what remains is, for each alias, the last record set with it,
      and the earlier records whose alias the batch does not mention. A later record with the
      same alias therefore replaces an earlier one, and the aliases stay unique. */
  lemma {:induction false} PutAllMembers(m: seq<Record>, rs: seq<Record>)
    requires UniqueAliases(m)
    ensures UniqueAliases(PutAll(m, rs))
    ensures forall x :: x in PutAll(m, rs) <==> Survives(rs, x) || (x in m && !HasAlias(rs, x.alias))
  {
    if rs != [] {
      var p, r := rs[..|rs| - 1], rs[|rs| - 1];
      PutAllMembers(m, p);
      PutMembers(PutAll(m, p), r);
      forall x ensures x in PutAll(m, rs) <==> Survives(rs, x) || (x in m && !HasAlias(rs, x.alias)) {
        SurvivesStep(rs, x);
        HasAliasStep(rs, x.alias);
      }
    }
  }

  /** Seeding the Map from a list that has no alias twice gives that list back. */
  lemma {:induction false} PutAllFresh(rs: seq<Record>)
    requires UniqueAliases(rs)
    ensures PutAll([], rs) == rs
  {
    if rs != [] {
      var p, r := rs[..|rs| - 1], rs[|rs| - 1];
      assert UniqueAliases(p);
      PutAllFresh(p);
      PutAppendNew(p, r);
    }
  }

  lemma {:induction false} PutAppendNew(m: seq<Record>, r: Record)
    requires forall j :: 0 <= j < |m| ==> m[j].alias != r.alias
    ensures Put(m, r) == m + [r]
  {
    if m != [] {
      PutAppendNew(m[1..], r);
      assert m == [m[0]] + m[1..];
    }
  }

  /** A file handed to the page: its name and, when it could be read and parsed, its JSON value. */
  datatype SourceFile = SourceFile(name: string, content: Option<Value>)

  /** Only names ending in `.json`, in any letter case, are read. */
  predicate IsJsonName(name: string)
  {
    EndsWith(Lower(name), ".json")
  }

  /** The Map after one file: unchanged when the file is skipped, its rows set otherwise. */
  function FileStep(m: seq<Record>, f: SourceFile): seq<Record>
  {
    if !IsJsonName(f.name) || f.content.None? then m
    else
      match NormalizeToStudentRecords(f.content.value)
      case None => m
      case Some(rows) => PutAll(m, rows)
  }

  /** The class list after ingesting files on top of `students`. */
  function Ingested(students: seq<Record>, files: seq<SourceFile>): seq<Record>
  {
    if files == [] then PutAll([], students)
    else FileStep(Ingested(students, files[..|files| - 1]), files[|files| - 1])
  }

  /** Files that are all skipped (no `.json` name) leave a class list without duplicate
      aliases as it was. */
  lemma {:induction false} IngestSkipsNonJson(students: seq<Record>, files: seq<SourceFile>)
    requires UniqueAliases(students)
    requires forall i :: 0 <= i < |files| ==> !IsJsonName(files[i].name)
    ensures Ingested(students, files) == students
  {
    if files == [] {
      PutAllFresh(students);
    } else {
      IngestSkipsNonJson(students, files[..|files| - 1]);
    }
  }

  /** One turn of the file loop of `ingest`: a skipped file changes nothing; otherwise each row
      is set in turn (`for (const s of rows) byAlias.set(s.alias, s)`). */
  method IngestFile(byAlias: seq<Record>, f: SourceFile) returns (m: seq<Record>)
    requires UniqueAliases(byAlias)
    ensures m == FileStep(byAlias, f)
    ensures UniqueAliases(m)
  {
    m := byAlias;
    if IsJsonName(f.name) && f.content.Some? {
      var rows := NormalizeToStudentRecords(f.content.value);
      if rows.Some? {
        var j := 0;
        while j < |rows.value|
          invariant 0 <= j <= |rows.value|
          invariant m == PutAll(byAlias, rows.value[..j])
          invariant UniqueAliases(m)
        {
          assert rows.value[..j + 1][..j] == rows.value[..j];
          PutMembers(m, rows.value[j]);
          m := Put(m, rows.value[j]);
          j := j + 1;
        }
        assert rows.value[..j] == rows.value;
      }
    }
  }

  // ---------------------------------------------------------------------------------------
  // summarize: class statistics

  /** `students.map(s => Number(s.minutes) || 0)`. */
  function MinutesList(st: seq<Record>): (xs: seq<real>)
    ensures |xs| == |st| && forall i :: 0 <= i < |st| ==> xs[i] == NumberOr0(st[i].minutes)
  {
    seq(|st|, i requires 0 <= i < |st| => NumberOr0(st[i].minutes))
  }

  /** `students.map(s => Number(s.score) || 0)`. */
  function ScoreList(st: seq<Record>): (xs: seq<real>)
    ensures |xs| == |st| && forall i :: 0 <= i < |st| ==> xs[i] == NumberOr0(st[i].score)
  {
    seq(|st|, i requires 0 <= i < |st| => NumberOr0(st[i].score))
  }

  /** The comparator `(a, b) => a - b` is negative. */
  predicate Ascending(a: real, b: real)
  {
    a - b < 0.0
  }

  lemma AscendingOrder()
    ensures StrictWeakOrder(Ascending)
  {
  }

  /** The scores in ascending order. */
  function SortedScores(st: seq<Record>): seq<real>
  {
    SortBy(ScoreList(st), Ascending)
  }

  /** Average minutes: the rounded mean, or 0 for an empty class. */
  function AvgMinutes(st: seq<Record>): int
  {
    if st == [] then 0 else Round(RealSum(MinutesList(st)) / |st| as real)
  }

  /** Average score: the rounded mean of the sorted scores, or 0 for an empty class. */
  function AvgScore(st: seq<Record>): int
  {
    if st == [] then 0 else Round(RealSum(SortedScores(st)) / |st| as real)
  }

  /** The median of sorted scores: the middle one for an odd count, the rounded mean of the two
      middle ones for an even count, and none ('—') for no scores. */
  function Median(sc: seq<real>): Option<real>
  {
    if sc == [] then None
    else if |sc| % 2 == 1 then Some(sc[(|sc| - 1) / 2])
    else Some(Round((sc[|sc| / 2 - 1] + sc[|sc| / 2]) / 2.0) as real)
  }

  /** The averages lie between the rounded least and greatest values; an empty class has 0. */
  lemma AveragesBounded(st: seq<Record>, lo: real, hi: real)
    requires forall i :: 0 <= i < |st| ==> lo <= NumberOr0(st[i].minutes) <= hi && lo <= NumberOr0(st[i].score) <= hi
    ensures st == [] ==> AvgMinutes(st) == 0 && AvgScore(st) == 0
    ensures st != [] ==> Round(lo) <= AvgMinutes(st) <= Round(hi) && Round(lo) <= AvgScore(st) <= Round(hi)
  {
    if st != [] {
      MeanBounds(MinutesList(st), lo, hi);
      var sc := SortedScores(st);
      forall i | 0 <= i < |sc| ensures lo <= sc[i] <= hi {
        assert sc[i] in multiset(ScoreList(st));
        var j :| 0 <= j < |st| && ScoreList(st)[j] == sc[i];
      }
      MeanBounds(sc, lo, hi);
    }
  }

  /** On ascending values, the median of an odd count has at least half of the values at or
      below it and at least half at or above it. */
  lemma MedianOdd(sc: seq<real>)
    requires |sc| % 2 == 1 && forall i, j :: 0 <= i < j < |sc| ==> sc[i] <= sc[j]
    ensures var mid := (|sc| - 1) / 2;
      && Median(sc) == Some(sc[mid])
      && (forall i :: 0 <= i <= mid ==> sc[i] <= sc[mid])
      && (forall i :: mid <= i < |sc| ==> sc[mid] <= sc[i])
  {
  }

  /** On ascending values, the median of a non-zero even count is a whole number between the
      roundings of the two middle values, with half of the values at or below the lower middle
      value and half at or above the upper one. */
  lemma MedianEven(sc: seq<real>)
    requires |sc| > 0 && |sc| % 2 == 0 && forall i, j :: 0 <= i < j < |sc| ==> sc[i] <= sc[j]
    ensures var lo, hi := sc[|sc| / 2 - 1], sc[|sc| / 2];
      && Median(sc).Some? && Median(sc).value.Floor as real == Median(sc).value
      && Round(lo) as real <= Median(sc).value <= Round(hi) as real
      && (forall i :: 0 <= i < |sc| / 2 ==> sc[i] <= lo)
      && (forall i :: |sc| / 2 <= i < |sc| ==> hi <= sc[i])
  {
    var lo, hi := sc[|sc| / 2 - 1], sc[|sc| / 2];
    var mean := (lo + hi) / 2.0;
    assert lo <= mean <= hi;
    RoundMonotone(lo, mean);
    RoundMonotone(mean, hi);
  }

  /** The class median is taken over the class's scores in ascending order: none exactly for
      an empty class, otherwise as `MedianOdd` and `MedianEven` describe. */
  lemma MedianOfClass(st: seq<Record>)
    ensures var sc := SortedScores(st);
      && |sc| == |st| && multiset(sc) == multiset(ScoreList(st))
      && (forall i, j :: 0 <= i < j < |sc| ==> sc[i] <= sc[j])
      && (Median(sc) == None <==> st == [])
      && (Median(sc).Some? && |st| % 2 == 1 ==> Median(sc).value in ScoreList(st))
  {
    var sc := SortedScores(st);
    AscendingOrder();
    OrderOnAll(ScoreList(st), Ascending);
    SortBySorted(ScoreList(st), Ascending);
    if |st| % 2 == 1 {
      assert sc[(|st| - 1) / 2] in multiset(ScoreList(st));
    }
  }

  /** `topToolOf(s.raw)` for every student in turn, counted by tool name (`map.set(name,
      (map.get(name) || 0) + 1)`). */
  function ToolCounts(st: seq<Record>): seq<(string, int)>
  {
    if st == [] then []
    else
      var prior := ToolCounts(st[..|st| - 1]);
      var t := TopToolOf(st[|st| - 1].raw);
      if t.Some? then Weekly.AddTo(prior, t.value.0, 1) else prior
  }

  /** The number of students whose portfolio names a top tool, and of those naming `name`. */
  function WithTool(st: seq<Record>, name: Option<string>): nat
  {
    if st == [] then 0
    else
      var t := TopToolOf(st[|st| - 1].raw);
      WithTool(st[..|st| - 1], name) + (if t.Some? && (name.None? || name.value == t.value.0) then 1 else 0)
  }

  /** The tool counts are a map from tool to the number of students whose top tool it is, and
      they add up to the number of students with a top tool. */
  lemma {:induction false} ToolCountsFacts(st: seq<Record>)
    ensures var c := ToolCounts(st);
      && Weekly.KeysUnique(c)
      && Weekly.Values(c) == WithTool(st, None)
      && forall name :: Weekly.Lookup(c, name) == WithTool(st, Some(name))
  {
    if st != [] {
      var p := st[..|st| - 1];
      ToolCountsFacts(p);
      var t := TopToolOf(st[|st| - 1].raw);
      if t.Some? {
        Weekly.AddToUnique(ToolCounts(p), t.value.0, 1);
        Weekly.AddToValues(ToolCounts(p), t.value.0, 1);
      }
    }
  }

  /** The comparator `(a, b) => b[1] - a[1]` on counted entries is negative. */
  predicate MoreCount(a: (string, int), b: (string, int))
  {
    b.1 - a.1 < 0
  }

  lemma MoreCountOrder()
    ensures StrictWeakOrder(MoreCount)
  {
  }

  /** The n most used tools, most used first: `[...map.entries()].sort(...).slice(0, n)`. */
  function TopTools(st: seq<Record>, n: nat): seq<(string, int)>
  {
    var sorted := SortBy(ToolCounts(st), MoreCount);
    sorted[..Min(n, |sorted|)]
  }

  /** At most n tools, each with its true count, in decreasing order of count, and no tool left
      out is used by more students than a listed one. */
  lemma TopToolsFacts(st: seq<Record>, n: nat)
    ensures var top := TopTools(st, n); var all := SortBy(ToolCounts(st), MoreCount);
      && |top| == Min(n, |ToolCounts(st)|)
      && (forall i :: 0 <= i < |top| ==> top[i] in ToolCounts(st) && top[i].1 == WithTool(st, Some(top[i].0)))
      && (forall i, j :: 0 <= i < j < |top| ==> top[j].1 <= top[i].1)
      && (forall i, j :: 0 <= i < |top| <= j < |all| ==> all[j].1 <= top[i].1)
  {
    var c := ToolCounts(st);
    var all := SortBy(c, MoreCount);
    SortedCounts(st);
    var top := TopTools(st, n);
    assert top == all[..Min(n, |all|)];
    forall i | 0 <= i < |top|
      ensures top[i] in c && top[i].1 == WithTool(st, Some(top[i].0))
      ensures forall j :: i < j < |all| ==> all[j].1 <= top[i].1
    {
      assert top[i] == all[i];
      forall j | i < j < |all| ensures all[j].1 <= top[i].1 {
        assert !MoreCount(all[j], all[i]);
      }
    }
  }

  /** The sorted tool counts: each entry a true count, most used first. */
  lemma SortedCounts(st: seq<Record>)
    ensures var c := ToolCounts(st); var all := SortBy(c, MoreCount);
      && |all| == |c| && SortedBy(all, MoreCount)
      && forall i :: 0 <= i < |all| ==> all[i] in c && all[i].1 == WithTool(st, Some(all[i].0))
  {
    var c := ToolCounts(st);
    var all := SortBy(c, MoreCount);
    MoreCountOrder();
    OrderOnAll(c, MoreCount);
    SortBySorted(c, MoreCount);
    ToolCountsFacts(st);
    forall i | 0 <= i < |all| ensures all[i] in c && all[i].1 == WithTool(st, Some(all[i].0)) {
      assert all[i] in multiset(c);
      LookupOfMember(c, all[i]);
    }
  }

  /** In a map without duplicate keys, an entry's value is what looking its key up gives. */
  lemma {:induction false} LookupOfMember(c: seq<(string, int)>, e: (string, int))
    requires Weekly.KeysUnique(c) && e in c
    ensures Weekly.Lookup(c, e.0) == e.1
  {
    if c[0] != e {
      Weekly.UniqueTail(c);
      LookupOfMember(c[1..], e);
      assert c[0].0 != e.0 by {
        var j :| 0 <= j < |c| && c[j] == e;
      }
    }
  }

  // ---------------------------------------------------------------------------------------
  // getOrdered / getFiltered: the table rows

  /** `row[k]`: a column of a row by its property name. */
  function Column(r: Record, k: string): Value
  {
    if k == "alias" then r.alias
    else if k == "score" then r.score
    else if k == "minutes" then r.minutes
    else if k == "top" then r.top
    else if k == "streak" then r.streak
    else if k == "raw" then r.raw
    else Undefined
  }

  /** The `getOrdered` comparator is negative: `ka < kb` when ascending; when descending,
      `ka < kb` fails and `ka > kb` holds. */
  predicate ColumnBefore(k: string, asc: bool, a: Record, b: Record)
  {
    var ka, kb := Column(a, k), Column(b, k);
    if JsLess(ka, kb) then asc else if JsLess(kb, ka) then !asc else false
  }

  function OrderBy(k: string, asc: bool): (Record, Record) -> bool
  {
    (a: Record, b: Record) => ColumnBefore(k, asc, a, b)
  }

  /** `getOrdered`: the class sorted by column k, ascending or descending. */
  function GetOrdered(st: seq<Record>, k: string, asc: bool): seq<Record>
  {
    SortBy(st, OrderBy(k, asc))
  }

  /** The column holds only strings or only numbers other than NaN. */
  predicate ComparableColumn(st: seq<Record>, k: string)
  {
    (forall r | r in st :: Column(r, k).Str?) || (forall r | r in st :: Column(r, k).Num?)
  }

  lemma ColumnOrder(st: seq<Record>, k: string, asc: bool)
    requires ComparableColumn(st, k)
    ensures OrderOn(st, OrderBy(k, asc))
  {
    var before := OrderBy(k, asc);
    forall a, b, c | a in st && b in st && c in st
      ensures before(a, b) ==> !before(b, a)
      ensures before(a, b) && before(b, c) ==> before(a, c)
      ensures !before(a, b) && !before(b, c) ==> !before(a, c)
    {
      var ka, kb, kc := Column(a, k), Column(b, k), Column(c, k);
      JsLessLaws(ka, kb, kc);
      JsLessLaws(kc, kb, ka);
      JsLessLaws(ka, kc, kb);
      JsLessLaws(kb, ka, kc);
    }
  }

  /** On a column of strings or of numbers, `getOrdered` is a permutation of the class, in
      non-decreasing column order when ascending and non-increasing when descending. */
  lemma GetOrderedSorted(st: seq<Record>, k: string, asc: bool)
    requires ComparableColumn(st, k)
    ensures var res := GetOrdered(st, k, asc);
      && |res| == |st| && multiset(res) == multiset(st)
      && (asc ==> forall i, j :: 0 <= i < j < |res| ==> !JsLess(Column(res[j], k), Column(res[i], k)))
      && (!asc ==> forall i, j :: 0 <= i < j < |res| ==> !JsLess(Column(res[i], k), Column(res[j], k)))
  {
    var res := GetOrdered(st, k, asc);
    ColumnOrder(st, k, asc);
    SortBySorted(st, OrderBy(k, asc));
    forall i, j | 0 <= i < j < |res|
      ensures asc ==> !JsLess(Column(res[j], k), Column(res[i], k))
      ensures !asc ==> !JsLess(Column(res[i], k), Column(res[j], k))
    {
      assert !OrderBy(k, asc)(res[j], res[i]);
      JsLessAsymmetric(Column(res[i], k), Column(res[j], k));
    }
  }

  /** The row passes the search: an empty query passes everything, otherwise the lower-cased
      alias must contain it (a non-string alias never matches). */
  predicate AliasHas(q: string, r: Record)
  {
    q == [] || (r.alias.Str? && Contains(Lower(r.alias.s), q))
  }

  function AliasMatches(q: string): Record -> bool
  {
    (r: Record) => AliasHas(q, r)
  }

  /** `getFiltered`: the ordered rows that pass the trimmed, lower-cased search term. */
  function GetFiltered(st: seq<Record>, k: string, asc: bool, term: string): seq<Record>
  {
    Filter(GetOrdered(st, k, asc), AliasMatches(Trim(Lower(term))))
  }

  /** `getFiltered` keeps exactly the students whose alias matches, in table order; a blank
      term keeps the whole ordered class. */
  lemma GetFilteredFacts(st: seq<Record>, k: string, asc: bool, term: string)
    ensures forall r :: r in GetFiltered(st, k, asc, term) <==> r in st && AliasHas(Trim(Lower(term)), r)
    ensures Trim(Lower(term)) == [] ==> GetFiltered(st, k, asc, term) == GetOrdered(st, k, asc)
    ensures SortedBy(GetOrdered(st, k, asc), OrderBy(k, asc)) ==>
      SortedBy(GetFiltered(st, k, asc, term), OrderBy(k, asc))
  {
    var q := Trim(Lower(term));
    var ord := GetOrdered(st, k, asc);
    var res := GetFiltered(st, k, asc, term);
    assert res == Filter(ord, AliasMatches(q));
    SortByMembers(st, OrderBy(k, asc));
    forall r ensures r in res <==> r in st && AliasHas(q, r) {
      assert AliasMatches(q)(r) == AliasHas(q, r);
    }
    if q == [] {
      FilterAll(ord, AliasMatches([]));
    }
    if SortedBy(ord, OrderBy(k, asc)) {
      FilterSorted(ord, AliasMatches(q), OrderBy(k, asc));
    }
  }

  // ---------------------------------------------------------------------------------------
  // histogram: the score chart's bins

  /** `Math.min(4, Math.max(0, Math.floor(x / 20)))`. */
  function BinOf(x: real): int
  {
    Min(4, Max(0, (x / 20.0).Floor))
  }

  /** The five bins are the bands 0–19, 20–39, 40–59, 60–79 and 80 up: negative values join the
      first and everything from 80 on (100 included) the last. */
  lemma BinRanges(x: real)
    ensures 0 <= BinOf(x) <= 4
    ensures BinOf(x) == 0 <==> x < 20.0
    ensures BinOf(x) == 1 <==> 20.0 <= x < 40.0
    ensures BinOf(x) == 2 <==> 40.0 <= x < 60.0
    ensures BinOf(x) == 3 <==> 60.0 <= x < 80.0
    ensures BinOf(x) == 4 <==> 80.0 <= x
  {
    var f := (x / 20.0).Floor;
    assert f as real <= x / 20.0 < f as real + 1.0;
    assert 20.0 * (f as real) <= x < 20.0 * (f as real) + 20.0;
  }

  /** The bin of a chart value, none when it is NaN (`counts[NaN]++` touches no bin). */
  function ValueBin(v: Value): Option<int>
  {
    var x := ToNumber(v);
    if x.Num? then Some(BinOf(x.n)) else None
  }

  /** How many values fall in bin b. */
  function CountBin(values: seq<Value>, b: int): nat
  {
    if values == [] then 0
    else CountBin(values[..|values| - 1], b) + (if ValueBin(values[|values| - 1]) == Some(b) then 1 else 0)
  }

  /** How many values are numbers. */
  function CountNumeric(values: seq<Value>): nat
  {
    if values == [] then 0
    else CountNumeric(values[..|values| - 1]) + (if ToNumber(values[|values| - 1]).Num? then 1 else 0)
  }

  /** `histogram`: the five bin counts of the values (`s.score || 0` for each student). */
  method Histogram(values: seq<Value>) returns (bins: seq<int>)
    ensures |bins| == 5 && forall b :: 0 <= b < 5 ==> bins[b] == CountBin(values, b)
  {
    var counts := new int[5](_ => 0);
    var i := 0;
    while i < |values|
      invariant 0 <= i <= |values|
      invariant forall b :: 0 <= b < 5 ==> counts[b] == CountBin(values[..i], b)
    {
      assert values[..i + 1][..i] == values[..i];
      var x := ToNumber(values[i]);
      if x.Num? {
        var idx := BinOf(x.n);
        BinRanges(x.n);
        counts[idx] := counts[idx] + 1;
      }
      i := i + 1;
    }
    assert values[..i] == values;
    bins := counts[..];
  }

  /** The bins together count every numeric value once. */
  lemma {:induction false} HistogramTotal(values: seq<Value>)
    ensures CountBin(values, 0) + CountBin(values, 1) + CountBin(values, 2) + CountBin(values, 3)
      + CountBin(values, 4) == CountNumeric(values)
  {
    if values != [] {
      HistogramTotal(values[..|values| - 1]);
      var x := ToNumber(values[|values| - 1]);
      if x.Num? {
        BinRanges(x.n);
      }
    }
  }

  /** `students.map(s => s.score || 0)`. */
  function ChartValues(st: seq<Record>): (vs: seq<Value>)
    ensures |vs| == |st| && forall i :: 0 <= i < |st| ==> vs[i] == Or(st[i].score, Num(0.0))
  {
    seq(|st|, i requires 0 <= i < |st| => Or(st[i].score, Num(0.0)))
  }

  /** The student's chart value `s.score || 0` is a number in the score band b: below 20 for
      the first band, 20 wide for the middle three, from 80 on for the last. */
  predicate InBand(r: Record, b: int)
  {
    var x := ToNumber(Or(r.score, Num(0.0)));
    x.Num? &&
      (if b == 0 then x.n < 20.0
       else if 1 <= b <= 3 then 20.0 * b as real <= x.n < 20.0 * b as real + 20.0
       else b == 4 && 80.0 <= x.n)
  }

  /** How many students lie in band b. */
  function BandCount(st: seq<Record>, b: int): nat
  {
    if st == [] then 0 else BandCount(st[..|st| - 1], b) + (if InBand(st[|st| - 1], b) then 1 else 0)
  }

  /** Bin b of the score chart counts exactly the students whose `score || 0` is in band b. */
  lemma {:induction false} ChartCounts(st: seq<Record>, b: int)
    ensures CountBin(ChartValues(st), b) == BandCount(st, b)
  {
    if st != [] {
      var p := st[..|st| - 1];
      assert ChartValues(st)[..|st| - 1] == ChartValues(p);
      ChartCounts(p, b);
      ChartBinIsBand(st[|st| - 1], b);
    }
  }

  /** One student's chart value falls in bin b exactly when it lies in band b. */
  lemma ChartBinIsBand(r: Record, b: int)
    ensures ValueBin(Or(r.score, Num(0.0))) == Some(b) <==> InBand(r, b)
  {
    var x := ToNumber(Or(r.score, Num(0.0)));
    if x.Num? {
      BinRanges(x.n);
    }
  }

  // ---------------------------------------------------------------------------------------
  // exportClassReportPNG: the aggregate block

  /** The report's median: as in the summary, but 0 for an empty class. */
  function ReportMedian(st: seq<Record>): (m: real)
    ensures st == [] ==> m == 0.0
    ensures st != [] ==> Median(SortedScores(st)) == Some(m)
  {
    MedianOfClass(st);
    match Median(SortedScores(st))
    case None => 0.0
    case Some(m) => m
  }

  /** `(Number(s.streak) || 0) >= 3`. */
  predicate LongStreak(r: Record)
  {
    NumberOr0(r.streak) >= 3.0
  }

  function LongStreakTest(): Record -> bool
  {
    (r: Record) => LongStreak(r)
  }

  /** `streak3`: the number of students on a streak of three weeks or more. */
  function Streak3(st: seq<Record>): nat
  {
    |Filter(st, LongStreakTest())|
  }

  /** streak3 counts the whole class exactly when everyone has a streak of at least 3, and is
      0 exactly when nobody has; it never exceeds the class size. */
  lemma Streak3Facts(st: seq<Record>)
    ensures Streak3(st) <= |st|
    ensures Streak3(st) == |st| <==> forall i :: 0 <= i < |st| ==> NumberOr0(st[i].streak) >= 3.0
    ensures Streak3(st) == 0 <==> forall i :: 0 <= i < |st| ==> NumberOr0(st[i].streak) < 3.0
  {
    FilterLength(st, LongStreakTest());
  }

  /** `(v || 0)` read as a number. */
  function NumKey(v: Value): Value
  {
    ToNumber(Or(v, Num(0.0)))
  }

  /** `a - b` on two numbers: NaN when either is NaN. */
  function Minus(a: Value, b: Value): Value
  {
    if a.Num? && b.Num? then Num(a.n - b.n) else NaN
  }

  /** A comparator result that sorts its first argument first. */
  predicate Negative(v: Value)
  {
    v.Num? && v.n < 0.0
  }

  /** Every student's score and minutes read as numbers (no NaN). */
  predicate NumericRows(st: seq<Record>)
  {
    forall r | r in st :: NumKey(r.score).Num? && NumKey(r.minutes).Num?
  }

  /** `(a, b) => (b.minutes || 0) - (a.minutes || 0)` is negative. */
  predicate MoreMinutesFirst(a: Record, b: Record)
  {
    Negative(Minus(NumKey(b.minutes), NumKey(a.minutes)))
  }

  /** `(a, b) => (b.score || 0) - (a.score || 0) || (b.minutes || 0) - (a.minutes || 0)` is negative. */
  predicate HighScoreFirst(a: Record, b: Record)
  {
    Negative(Or(Minus(NumKey(b.score), NumKey(a.score)), Minus(NumKey(b.minutes), NumKey(a.minutes))))
  }

  /** `(a, b) => (a.score || 0) - (b.score || 0) || (b.minutes || 0) - (a.minutes || 0)` is negative. */
  predicate LowScoreFirst(a: Record, b: Record)
  {
    Negative(Or(Minus(NumKey(a.score), NumKey(b.score)), Minus(NumKey(b.minutes), NumKey(a.minutes))))
  }

  /** `(s.score || 0) < 50`. */
  predicate Struggling(r: Record)
  {
    JsLess(Or(r.score, Num(0.0)), Num(50.0))
  }

  function StrugglingTest(): Record -> bool
  {
    (r: Record) => Struggling(r)
  }

  /** `top10Minutes`. */
  function Top10Minutes(st: seq<Record>): seq<Record>
  {
    var all := SortBy(st, MoreMinutesFirst);
    all[..Min(10, |all|)]
  }

  /** `top5Score`. */
  function Top5Score(st: seq<Record>): seq<Record>
  {
    var all := SortBy(st, HighScoreFirst);
    all[..Min(5, |all|)]
  }

  /** `needsHelp`: the students scoring under 50, lowest score first and, among equal scores,
      most minutes first, at most five. */
  function NeedsHelp(st: seq<Record>): seq<Record>
  {
    var all := SortBy(Filter(st, StrugglingTest()), LowScoreFirst);
    all[..Min(5, |all|)]
  }

  lemma LowScoreFirstIff(a: Record, b: Record)
    requires NumKey(a.score).Num? && NumKey(a.minutes).Num? && NumKey(b.score).Num? && NumKey(b.minutes).Num?
    ensures LowScoreFirst(a, b) <==>
      NumKey(a.score).n < NumKey(b.score).n
      || (NumKey(a.score).n == NumKey(b.score).n && NumKey(b.minutes).n < NumKey(a.minutes).n)
  {
  }

  lemma HighScoreFirstIff(a: Record, b: Record)
    requires NumKey(a.score).Num? && NumKey(a.minutes).Num? && NumKey(b.score).Num? && NumKey(b.minutes).Num?
    ensures HighScoreFirst(a, b) <==>
      NumKey(b.score).n < NumKey(a.score).n
      || (NumKey(a.score).n == NumKey(b.score).n && NumKey(b.minutes).n < NumKey(a.minutes).n)
  {
  }

  /** The needs-attention list: at most five students, all from the class and all scoring under
      50, ordered by score ascending then minutes descending; no struggling student left out
      ranks ahead of one listed. */
  lemma NeedsHelpFacts(st: seq<Record>)
    requires NumericRows(st)
    ensures var nh := NeedsHelp(st); var all := SortBy(Filter(st, StrugglingTest()), LowScoreFirst);
      && |nh| <= 5
      && (forall i :: 0 <= i < |nh| ==> nh[i] in st && NumKey(nh[i].score).n < 50.0)
      && (forall i, j :: 0 <= i < j < |nh| ==>
            NumKey(nh[i].score).n < NumKey(nh[j].score).n
            || (NumKey(nh[i].score).n == NumKey(nh[j].score).n && NumKey(nh[j].minutes).n <= NumKey(nh[i].minutes).n))
      && (forall x :: x in all <==> x in st && Struggling(x))
      && (forall i, j :: 0 <= i < |nh| <= j < |all| ==> !LowScoreFirst(all[j], nh[i]))
  {
    var low := Filter(st, StrugglingTest());
    LowScoreOrder(low);
    SortedPrefix(low, LowScoreFirst, 5);
    SortByMembers(low, LowScoreFirst);
    var nh := NeedsHelp(st);
    forall i | 0 <= i < |nh| ensures nh[i] in st && NumKey(nh[i].score).n < 50.0 {
      assert nh[i] in low;
      StrugglingIff(nh[i]);
    }
    LowScoreSorted(nh);
  }

  /** `(s.score || 0) < 50` compares numbers, since 50 is one. */
  lemma StrugglingIff(r: Record)
    ensures Struggling(r) <==> NumKey(r.score).Num? && NumKey(r.score).n < 50.0
  {
    assert !ToPrimitive(Num(50.0)).Str?;
  }

  lemma LowScoreOrder(low: seq<Record>)
    requires NumericRows(low)
    ensures OrderOn(low, LowScoreFirst)
  {
    forall a, b | a in low && b in low
      ensures LowScoreFirst(a, b) <==>
        NumKey(a.score).n < NumKey(b.score).n
        || (NumKey(a.score).n == NumKey(b.score).n && NumKey(b.minutes).n < NumKey(a.minutes).n)
    {
      LowScoreFirstIff(a, b);
    }
  }

  lemma LowScoreSorted(nh: seq<Record>)
    requires NumericRows(nh) && SortedBy(nh, LowScoreFirst)
    ensures forall i, j :: 0 <= i < j < |nh| ==>
      NumKey(nh[i].score).n < NumKey(nh[j].score).n
      || (NumKey(nh[i].score).n == NumKey(nh[j].score).n && NumKey(nh[j].minutes).n <= NumKey(nh[i].minutes).n)
  {
    forall i, j | 0 <= i < j < |nh|
      ensures NumKey(nh[i].score).n < NumKey(nh[j].score).n
        || (NumKey(nh[i].score).n == NumKey(nh[j].score).n && NumKey(nh[j].minutes).n <= NumKey(nh[i].minutes).n)
    {
      assert nh[i] in nh && nh[j] in nh;
      assert !LowScoreFirst(nh[j], nh[i]);
    }
  }

  /** The score leaderboard: at most five students of the class, highest score first and,
      among equal scores, most minutes first; nobody left out ranks ahead of one listed. */
  lemma Top5ScoreFacts(st: seq<Record>)
    requires NumericRows(st)
    ensures var top := Top5Score(st); var all := SortBy(st, HighScoreFirst);
      && |top| == Min(5, |st|)
      && (forall i :: 0 <= i < |top| ==> top[i] in st)
      && (forall i, j :: 0 <= i < j < |top| ==>
            NumKey(top[j].score).n < NumKey(top[i].score).n
            || (NumKey(top[i].score).n == NumKey(top[j].score).n && NumKey(top[j].minutes).n <= NumKey(top[i].minutes).n))
      && (forall i, j :: 0 <= i < |top| <= j < |all| ==> !HighScoreFirst(all[j], top[i]))
  {
    forall a, b | a in st && b in st
      ensures HighScoreFirst(a, b) <==>
        NumKey(b.score).n < NumKey(a.score).n
        || (NumKey(a.score).n == NumKey(b.score).n && NumKey(b.minutes).n < NumKey(a.minutes).n)
    {
      HighScoreFirstIff(a, b);
    }
    assert OrderOn(st, HighScoreFirst);
    SortedPrefix(st, HighScoreFirst, 5);
    var top := Top5Score(st);
    forall i, j | 0 <= i < j < |top|
      ensures NumKey(top[j].score).n < NumKey(top[i].score).n
        || (NumKey(top[i].score).n == NumKey(top[j].score).n && NumKey(top[j].minutes).n <= NumKey(top[i].minutes).n)
    {
      assert !HighScoreFirst(top[j], top[i]);
    }
  }

  /** The minutes leaderboard: at most ten students of the class, most minutes first, and
      nobody left out has more minutes than one listed. */
  lemma Top10MinutesFacts(st: seq<Record>)
    requires NumericRows(st)
    ensures var top := Top10Minutes(st); var all := SortBy(st, MoreMinutesFirst);
      && |top| == Min(10, |st|)
      && (forall j :: 0 <= j < |all| ==> all[j] in st)
      && (forall i, j :: 0 <= i < j < |top| ==> NumKey(top[j].minutes).n <= NumKey(top[i].minutes).n)
      && (forall i, j :: 0 <= i < |top| <= j < |all| ==> NumKey(all[j].minutes).n <= NumKey(top[i].minutes).n)
  {
    forall a, b | a in st && b in st
      ensures MoreMinutesFirst(a, b) <==> NumKey(b.minutes).n < NumKey(a.minutes).n
    {
    }
    assert OrderOn(st, MoreMinutesFirst);
    SortedPrefix(st, MoreMinutesFirst, 10);
    var all := SortBy(st, MoreMinutesFirst);
    forall j | 0 <= j < |all| ensures all[j] in st {
      assert all[j] in multiset(all);
    }
  }

  /** `Math.max(0, Math.min(100, Number(s.score) || 0))`. */
  function ClampedScore(r: Record): (v: real)
    ensures 0.0 <= v <= 100.0
    ensures 0.0 <= NumberOr0(r.score) <= 100.0 ==> v == NumberOr0(r.score)
    ensures NumberOr0(r.score) > 100.0 ==> v == 100.0
    ensures NumberOr0(r.score) < 0.0 ==> v == 0.0
  {
    var x := NumberOr0(r.score);
    if x > 100.0 then 100.0 else if x < 0.0 then 0.0 else x
  }

  /** The report's bin edges. */
  const ReportEdges: seq<real> := [0.0, 20.0, 40.0, 60.0, 80.0, 101.0]

  /** `bins.findIndex((b, i) => v >= bins[i] && v < bins[i + 1])`, from index i on; -1 when no
      band holds v (past the last edge, `bins[6]` is undefined and the test fails). */
  function FindBand(v: real, i: nat): int
    requires i <= 6
    decreases 6 - i
  {
    if i == 6 then -1
    else if i < 5 && ReportEdges[i] <= v < ReportEdges[i + 1] then i
    else FindBand(v, i + 1)
  }

  /** The report bins a clamped score exactly as the chart bins the raw score: the clamp sends
      negatives to the first band and values over 100 to the last. */
  lemma ReportBandAgrees(x: real)
    ensures var v := if x > 100.0 then 100.0 else if x < 0.0 then 0.0 else x;
      FindBand(v, 0) == BinOf(x)
  {
    BinRanges(x);
  }

  /** How many students the report puts in band b. */
  function ReportCount(st: seq<Record>, b: int): nat
  {
    if st == [] then 0
    else ReportCount(st[..|st| - 1], b) + (if FindBand(ClampedScore(st[|st| - 1]), 0) == b then 1 else 0)
  }

  /** The report's score histogram (`if (idx >= 0) counts[idx] += 1` for each student). */
  method ReportHistogram(st: seq<Record>) returns (bins: seq<int>)
    ensures |bins| == 5 && forall b :: 0 <= b < 5 ==> bins[b] == ReportCount(st, b)
  {
    var counts := new int[5](_ => 0);
    var i := 0;
    while i < |st|
      invariant 0 <= i <= |st|
      invariant forall b :: 0 <= b < 5 ==> counts[b] == ReportCount(st[..i], b)
    {
      assert st[..i + 1][..i] == st[..i];
      var v := ClampedScore(st[i]);
      var idx := FindBand(v, 0);
      ReportBandAgrees(v);
      if idx >= 0 {
        counts[idx] := counts[idx] + 1;
      }
      i := i + 1;
    }
    assert st[..i] == st;
    bins := counts[..];
  }

  /** When every score is a number, or a falsy value, the report and the chart fill the same
      bins. */
  lemma {:induction false} ReportMatchesChart(st: seq<Record>, b: int)
    requires forall i :: 0 <= i < |st| ==> ToNumber(st[i].score).Num? || !Truthy(st[i].score)
    ensures ReportCount(st, b) == CountBin(ChartValues(st), b)
  {
    if st != [] {
      var p := st[..|st| - 1];
      assert ChartValues(st)[..|st| - 1] == ChartValues(p);
      ReportMatchesChart(p, b);
      var r := st[|st| - 1];
      ReportBandAgrees(NumberOr0(r.score));
    }
  }

  // ---------------------------------------------------------------------------------------
  // CSV export

  /** One cell: the text wrapped in double quotes when it contains a comma, as it is otherwise
      (no other character is escaped). */
  function CsvCell(text: string): string
  {
    if Contains(text, ",") then "\"" + text + "\"" else text
  }

  /** The cells of a line. */
  function CsvCells(texts: seq<string>): (cells: seq<string>)
    ensures |cells| == |texts|
  {
    if texts == [] then [] else [CsvCell(texts[0])] + CsvCells(texts[1..])
  }

  /** `String(v)` of each value. */
  function Texts(row: seq<Value>): (texts: seq<string>)
    ensures |texts| == |row| && forall i :: 0 <= i < |row| ==> texts[i] == ToText(row[i])
  {
    seq(|row|, i requires 0 <= i < |row| => ToText(row[i]))
  }

  /** One CSV line: `row.map(v => cell(String(v))).join(',')`. */
  function CsvLine(row: seq<Value>): string
  {
    JoinWith(",", CsvCells(Texts(row)))
  }

  /** The cells of a table row: alias, score, minutes, top tool and streak. */
  function RowValues(r: Record): seq<Value>
  {
    [r.alias, r.score, r.minutes, r.top, r.streak]
  }

  /** The header: the first student's `friendly` labels, or the default column names. */
  function CsvHeader(st: seq<Record>): seq<Value>
  {
    var labels := Or(if st == [] then Undefined else Get(st[0].raw, "friendly"), Obj([]));
    [Or(Get(labels, "alias"), Str("Alias")), Or(Get(labels, "score"), Str("Score")),
     Or(Get(labels, "totals.minutes"), Str("Total minutes")), Or(Get(labels, "totals.by_domain"), Str("Top tool")),
     Or(Get(labels, "streak_weeks"), Str("Streak"))]
  }

  /** The exported file: the header line, then one line per row shown in the table. */
  function CsvText(st: seq<Record>, shown: seq<Record>): string
  {
    JoinWith("\n", [CsvLine(CsvHeader(st))] + seq(|shown|, i requires 0 <= i < |shown| => CsvLine(RowValues(shown[i]))))
  }

  /** The first position of c in s. */
  function IndexOf(s: string, c: char): (i: nat)
    requires c in s
    ensures i < |s| && s[i] == c && forall j :: 0 <= j < i ==> s[j] != c
  {
    if s[0] == c then 0
    else
      assert c in s[1..] by {
        var k :| 0 <= k < |s| && s[k] == c;
        assert s[1..][k - 1] == c;
      }
      IndexOf(s[1..], c) + 1
  }

  /** A reader of one CSV line (the reference the export is checked against): a cell that
      starts with a double quote runs to the next double quote and is unwrapped; any other cell
      runs to the next comma. */
  function Fields(s: string): (fs: seq<string>)
    ensures fs != []
    decreases |s|
  {
    if s != [] && s[0] == '"' && '"' in s[1..] then
      var close := 1 + IndexOf(s[1..], '"');
      if close + 1 < |s| && s[close + 1] == ',' then [s[1..close]] + Fields(s[close + 2..])
      else [s[1..close]]
    else if ',' in s then
      var comma := IndexOf(s, ',');
      [s[..comma]] + Fields(s[comma + 1..])
    else [s]
  }

  lemma ContainsChar(s: string, c: char)
    ensures Contains(s, [c]) <==> c in s
  {
    if Contains(s, [c]) {
      var i := ContainsWitness(s, [c]);
      assert s[i] == c;
    }
    if c in s {
      var i :| 0 <= i < |s| && s[i] == c;
      assert s[i..i + 1] == [c];
      ContainsAt(s, [c], i);
    }
  }

  /** A cell without commas or quotes reads back as itself, up to the next comma. */
  lemma PlainField(c: string, rest: string)
    requires ',' !in c && '"' !in c
    ensures Fields(c + "," + rest) == [c] + Fields(rest)
    ensures Fields(c) == [c]
  {
    var s := c + "," + rest;
    assert s[|c|] == ',';
    var comma := IndexOf(s, ',');
    assert comma == |c|;
    assert s[..comma] == c && s[comma + 1..] == rest;
    if c != [] {
      assert s[0] == c[0];
    }
  }

  /** A quoted cell without quotes inside reads back unwrapped, up to the comma after it. */
  lemma QuotedField(c: string, rest: string)
    requires '"' !in c
    ensures Fields("\"" + c + "\"" + "," + rest) == [c] + Fields(rest)
    ensures Fields("\"" + c + "\"") == [c]
  {
    var q := "\"" + c + "\"";
    var s := q + "," + rest;
    assert s[1..][|c|] == '"' && q[1..][|c|] == '"';
    var close := 1 + IndexOf(s[1..], '"');
    assert close == |c| + 1;
    assert s[1..close] == c && s[close + 1] == ',' && s[close + 2..] == rest;
    var closeQ := 1 + IndexOf(q[1..], '"');
    assert closeQ == |c| + 1;
    assert q[1..closeQ] == c;
  }

  /** Any cell text without a double quote reads back as itself. */
  lemma CellField(c: string, rest: string)
    requires '"' !in c
    ensures Fields(CsvCell(c) + "," + rest) == [c] + Fields(rest)
    ensures Fields(CsvCell(c)) == [c]
  {
    ContainsChar(c, ',');
    if ',' in c {
      QuotedField(c, rest);
    } else {
      PlainField(c, rest);
    }
  }

  /** A line of cells none of which holds a double quote reads back cell for cell: a comma inside
      a cell does not split it. */
  lemma {:induction false} CsvCellsRoundTrip(texts: seq<string>)
    requires texts != [] && forall i :: 0 <= i < |texts| ==> '"' !in texts[i]
    ensures Fields(JoinWith(",", CsvCells(texts))) == texts
  {
    var rest := texts[1..];
    if rest == [] {
      CellField(texts[0], "");
    } else {
      CellField(texts[0], JoinWith(",", CsvCells(rest)));
      CsvCellsRoundTrip(rest);
    }
  }

  /** A CSV line of values whose texts hold no double quote reads back as those texts. */
  lemma CsvLineRoundTrip(row: seq<Value>)
    requires row != [] && forall i :: 0 <= i < |row| ==> '"' !in ToText(row[i])
    ensures Fields(CsvLine(row)) == Texts(row)
  {
    CsvCellsRoundTrip(Texts(row));
  }

  /** The teacher page's class list. */
  class TeacherPage {
    var students: seq<Record>

    constructor ()
      ensures students == []
    {
      students := [];
    }

    /** `ingest`: every accepted file's rows are set into a Map seeded with the current class,
        and the class becomes the Map's values. */
    method Ingest(files: seq<SourceFile>)
      modifies this
      ensures students == Ingested(old(students), files)
      ensures UniqueAliases(students)
    {
      var byAlias := PutAll([], students);
      PutAllMembers([], students);
      var i := 0;
      while i < |files|
        invariant 0 <= i <= |files|
        invariant byAlias == Ingested(old(students), files[..i])
        invariant UniqueAliases(byAlias)
      {
        assert files[..i + 1][..i] == files[..i];
        byAlias := IngestFile(byAlias, files[i]);
        i := i + 1;
      }
      assert files[..i] == files;
      students := byAlias;
    }

    /** The Clear button: the class list is emptied. */
    method Clear()
      modifies this
      ensures students == []
    {
      students := [];
    }
  }
}
