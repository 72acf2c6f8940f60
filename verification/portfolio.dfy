/** The portfolio checks and the top-tool pick that both report pages apply to a loaded
    portfolio: `valid` and `topToolOf` of the teacher page, `validate` and `topTool` of the
    student page. */
module Portfolio {
  import opened Common
  import opened Sorting
  import opened JsValue

  /** `valid` (teacher page): a truthy value whose version is '0.1', whose alias is a string and
      whose `totals.minutes` is a number. */
  predicate Valid(d: Value)
  {
    Truthy(d) && Get(d, "version") == Str("0.1") && Get(d, "alias").Str?
    && IsNumber(Get(Get(d, "totals"), "minutes"))
  }

  /** `validate` (student page): the same checks plus `consent === true` and truthy totals. */
  predicate Validate(d: Value)
  {
    Truthy(d) && Get(d, "version") == Str("0.1") && Get(d, "consent") == Bool(true)
    && Get(d, "alias").Str? && Truthy(Get(d, "totals")) && IsNumber(Get(Get(d, "totals"), "minutes"))
  }

  /** The student page accepts exactly the portfolios the teacher page accepts that carry
      consent: the truthy-totals test is implied by a numeric `totals.minutes`. */
  lemma ValidateIff(d: Value)
    ensures Validate(d) <==> Valid(d) && Get(d, "consent") == Bool(true)
  {
  }

  /** `d?.totals?.by_domain || {}`. */
  function ByDomain(d: Value): Value
  {
    Or(Get(Get(d, "totals"), "by_domain"), Obj([]))
  }

  /** The comparator `(a, b) => b[1] - a[1]` is negative: a has strictly more minutes than b. */
  predicate MoreMinutes(a: (string, Value), b: (string, Value))
  {
    ToNumber(a.1).Num? && ToNumber(b.1).Num? && ToNumber(b.1).n - ToNumber(a.1).n < 0.0
  }

  /** `topToolOf` / `topTool`: the first entry of `by_domain` once sorted by minutes, largest
      first; none when there is no entry. */
  function TopToolOf(d: Value): (t: Option<(string, Value)>)
    ensures t == None <==> Entries(ByDomain(d)) == []
    ensures t.Some? ==> t.value in Entries(ByDomain(d))
  {
    TopEntry(Entries(ByDomain(d)))
  }

  /** The first of the entries once sorted by minutes, largest first. */
  function TopEntry(es: seq<(string, Value)>): (t: Option<(string, Value)>)
    ensures t == None <==> es == []
    ensures t.Some? ==> t.value in es
  {
    if es == [] then None
    else
      var sorted := SortBy(es, MoreMinutes);
      assert sorted[0] in multiset(sorted);
      Some(sorted[0])
  }

  /** When every minute count is a number, the top tool is the entry with the greatest minutes,
      and of several such entries the earliest (the sort is stable). */
  lemma TopToolIsFirstMax(d: Value) returns (k: nat)
    requires Entries(ByDomain(d)) != [] && NumericMinutes(Entries(ByDomain(d)))
    ensures k < |Entries(ByDomain(d))| && TopToolOf(d) == Some(Entries(ByDomain(d))[k])
    ensures FirstMax(Entries(ByDomain(d)), k)
  {
    k := FirstMaxEntry(Entries(ByDomain(d)));
  }

  /** Every minute count is a number. */
  predicate NumericMinutes(es: seq<(string, Value)>)
  {
    forall e | e in es :: ToNumber(e.1).Num?
  }

  /** Entry k has the most minutes, and every entry before it strictly fewer. */
  predicate FirstMax(es: seq<(string, Value)>, k: nat)
    requires k < |es| && NumericMinutes(es)
  {
    && (forall j :: 0 <= j < |es| ==> ToNumber(es[j].1).n <= ToNumber(es[k].1).n)
    && (forall j :: 0 <= j < k ==> ToNumber(es[j].1).n < ToNumber(es[k].1).n)
  }

  /** The head of the minutes-descending sort of numeric entries is the first greatest one. */
  lemma FirstMaxEntry(es: seq<(string, Value)>) returns (k: nat)
    requires es != [] && NumericMinutes(es)
    ensures k < |es| && TopEntry(es) == Some(es[k])
    ensures FirstMax(es, k)
  {
    MoreMinutesOrder(es);
    k := SortByHead(es, MoreMinutes);
    forall j | 0 <= j < |es| ensures ToNumber(es[j].1).n <= ToNumber(es[k].1).n {
      assert es[j] in es && es[k] in es;
      assert !MoreMinutes(es[j], es[k]);
    }
    forall j | 0 <= j < k ensures ToNumber(es[j].1).n < ToNumber(es[k].1).n {
      assert MoreMinutes(es[k], es[j]);
    }
  }

  /** On numeric entries, "more minutes" orders them as a sort needs. */
  lemma MoreMinutesOrder(es: seq<(string, Value)>)
    requires NumericMinutes(es)
    ensures OrderOn(es, MoreMinutes)
  {
  }
}
