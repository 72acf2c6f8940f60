/** `Array.prototype.sort` with a comparator, as a stable insertion sort, and the orders the
    extension sorts by. `before(a, b)` holds when the comparator returns a negative number for
    (a, b), i.e. a must come strictly before b. */
module Sorting {
  import opened Common

  /** A comparator JavaScript can sort with: a strict weak order. */
  ghost predicate StrictWeakOrder<T(!new)>(before: (T, T) -> bool)
  {
    && (forall a, b :: before(a, b) ==> !before(b, a))
    && (forall a, b, c :: before(a, b) && before(b, c) ==> before(a, c))
    && (forall a, b, c :: !before(a, b) && !before(b, c) ==> !before(a, c))
  }

  /** No element is strictly before an element placed ahead of it. */
  ghost predicate SortedBy<T>(s: seq<T>, before: (T, T) -> bool)
  {
    forall i, j :: 0 <= i < j < |s| ==> !before(s[j], s[i])
  }

  /** Inserts x behind every element it is not strictly before (so equal elements keep their order). */
  function Insert<T>(t: seq<T>, x: T, before: (T, T) -> bool): (r: seq<T>)
    ensures |r| == |t| + 1
    ensures multiset(r) == multiset(t) + multiset{x}
  {
    if t == [] || !before(x, t[|t| - 1]) then t + [x]
    else
      var p := t[..|t| - 1];
      assert t == p + [t[|t| - 1]];
      Insert(p, x, before) + [t[|t| - 1]]
  }

  /** The stable sort of s under the comparator. */
  function SortBy<T>(s: seq<T>, before: (T, T) -> bool): (r: seq<T>)
    ensures |r| == |s|
    ensures multiset(r) == multiset(s)
  {
    if s == [] then []
    else
      assert s == s[..|s| - 1] + [s[|s| - 1]];
      Insert(SortBy(s[..|s| - 1], before), s[|s| - 1], before)
  }

  /** The comparator is a strict weak order on the elements of dom: JavaScript's sort has a
      defined result when the comparator is consistent on the values actually sorted. */
  ghost predicate OrderOn<T>(dom: seq<T>, before: (T, T) -> bool)
  {
    && (forall a, b :: a in dom && b in dom && before(a, b) ==> !before(b, a))
    && (forall a, b, c :: a in dom && b in dom && c in dom && before(a, b) && before(b, c) ==> before(a, c))
    && (forall a, b, c :: a in dom && b in dom && c in dom && !before(a, b) && !before(b, c) ==> !before(a, c))
  }

  lemma OrderOnAll<T(!new)>(dom: seq<T>, before: (T, T) -> bool)
    requires StrictWeakOrder(before)
    ensures OrderOn(dom, before)
  {
  }

  lemma OrderOnSub<T>(small: seq<T>, big: seq<T>, before: (T, T) -> bool)
    requires OrderOn(big, before) && forall z :: z in small ==> z in big
    ensures OrderOn(small, before)
  {
  }

  lemma SortByMembers<T>(s: seq<T>, before: (T, T) -> bool)
    ensures forall z :: z in SortBy(s, before) <==> z in s
  {
    var r := SortBy(s, before);
    forall z ensures z in r <==> z in s {
      assert z in r <==> z in multiset(r);
      assert z in s <==> z in multiset(s);
    }
  }

  /** The sorted front of s and its last element are elements of s. */
  lemma FrontMembers<T>(s: seq<T>, before: (T, T) -> bool)
    requires s != []
    ensures forall z :: z in s[..|s| - 1] ==> z in s
    ensures forall z :: z in SortBy(s[..|s| - 1], before) + [s[|s| - 1]] ==> z in s
  {
    var p := s[..|s| - 1];
    SortByMembers(p, before);
    forall z | z in p ensures z in s {
      var i :| 0 <= i < |p| && p[i] == z;
      assert s[i] == z;
    }
    forall z | z in SortBy(p, before) + [s[|s| - 1]] ensures z in s {
      if z in SortBy(p, before) {
        assert z in multiset(SortBy(p, before));
        assert z in multiset(p);
        var i :| 0 <= i < |p| && p[i] == z;
        assert s[i] == z;
      } else {
        assert z == s[|s| - 1];
      }
    }
  }

  lemma {:induction false} InsertSorted<T>(t: seq<T>, x: T, before: (T, T) -> bool)
    requires OrderOn(t + [x], before) && SortedBy(t, before)
    ensures SortedBy(Insert(t, x, before), before)
  {
    if t == [] || !before(x, t[|t| - 1]) {
      var r := t + [x];
      forall i, j | 0 <= i < j < |r| ensures !before(r[j], r[i]) {
        if j == |t| && i < |t| - 1 {
          assert !before(t[|t| - 1], t[i]);
          assert t[i] in t + [x] && t[|t| - 1] in t + [x];
        }
      }
    } else {
      var p := t[..|t| - 1];
      var last := t[|t| - 1];
      OrderOnSub(p + [x], t + [x], before);
      InsertSorted(p, x, before);
      var q := Insert(p, x, before);
      var r := q + [last];
      assert multiset(q) == multiset(p) + multiset{x};
      forall i, j | 0 <= i < j < |r| ensures !before(r[j], r[i]) {
        if j == |q| {
          assert q[i] in multiset(q);
          assert q[i] in multiset(p) || q[i] == x;
          assert last in t + [x] && x in t + [x];
          if q[i] != x {
            var k :| 0 <= k < |p| && p[k] == q[i];
            assert !before(t[|t| - 1], t[k]);
          }
        }
      }
    }
  }

  lemma {:induction false} SortBySorted<T>(s: seq<T>, before: (T, T) -> bool)
    requires OrderOn(s, before)
    ensures SortedBy(SortBy(s, before), before)
  {
    if s != [] {
      var p := s[..|s| - 1];
      FrontMembers(s, before);
      OrderOnSub(p, s, before);
      SortBySorted(p, before);
      OrderOnSub(SortBy(p, before) + [s[|s| - 1]], s, before);
      InsertSorted(SortBy(p, before), s[|s| - 1], before);
    }
  }

  /** Sorting a sequence that is already in order leaves it as it is. */
  lemma {:induction false} SortByIdentity<T>(s: seq<T>, before: (T, T) -> bool)
    requires SortedBy(s, before)
    ensures SortBy(s, before) == s
  {
    if s != [] {
      var p := s[..|s| - 1];
      assert SortedBy(p, before);
      SortByIdentity(p, before);
      if |p| > 0 {
        assert !before(s[|s| - 1], s[|s| - 2]);
      }
      assert p + [s[|s| - 1]] == s;
    }
  }

  lemma {:induction false} InsertHead<T>(t: seq<T>, x: T, before: (T, T) -> bool)
    requires OrderOn(t + [x], before) && SortedBy(t, before) && t != []
    ensures Insert(t, x, before)[0] == if before(x, t[0]) then x else t[0]
  {
    var last := t[|t| - 1];
    if before(x, last) && |t| > 1 {
      var p := t[..|t| - 1];
      assert SortedBy(p, before);
      OrderOnSub(p + [x], t + [x], before);
      InsertHead(p, x, before);
    }
  }

  /** The head of the sort of s: the last element when it is strictly before the head of the
      sort of the others, that head otherwise. */
  lemma SortByFront<T>(s: seq<T>, before: (T, T) -> bool)
    requires OrderOn(s, before) && |s| > 1
    ensures var p := s[..|s| - 1];
      SortBy(s, before)[0] == if before(s[|s| - 1], SortBy(p, before)[0]) then s[|s| - 1] else SortBy(p, before)[0]
  {
    var p := s[..|s| - 1];
    FrontMembers(s, before);
    OrderOnSub(p, s, before);
    SortBySorted(p, before);
    OrderOnSub(SortBy(p, before) + [s[|s| - 1]], s, before);
    InsertHead(SortBy(p, before), s[|s| - 1], before);
  }

  /** The head of the stable sort is the first element that nothing is strictly before:
      `[...].sort(cmp)[0]` picks the earliest of the best elements. */
  lemma {:induction false} SortByHead<T>(s: seq<T>, before: (T, T) -> bool) returns (k: nat)
    requires OrderOn(s, before) && s != []
    ensures k < |s| && SortBy(s, before)[0] == s[k]
    ensures forall j :: 0 <= j < |s| ==> !before(s[j], s[k])
    ensures forall j :: 0 <= j < k ==> before(s[k], s[j])
  {
    if |s| == 1 {
      k := 0;
    } else {
      var p := s[..|s| - 1];
      FrontMembers(s, before);
      OrderOnSub(p, s, before);
      var kp := SortByHead(p, before);
      SortByFront(s, before);
      k := HeadStep(s, before, kp);
    }
  }

  /** One step of SortByHead: from the best of the front to the best of the whole. */
  lemma HeadStep<T>(s: seq<T>, before: (T, T) -> bool, kp: nat) returns (k: nat)
    requires OrderOn(s, before) && |s| > 1
    requires var p := s[..|s| - 1];
      && kp < |p|
      && (forall j :: 0 <= j < |p| ==> !before(p[j], p[kp]))
      && (forall j :: 0 <= j < kp ==> before(p[kp], p[j]))
      && SortBy(s, before)[0] == if before(s[|s| - 1], p[kp]) then s[|s| - 1] else p[kp]
    ensures k < |s| && SortBy(s, before)[0] == s[k]
    ensures forall j :: 0 <= j < |s| ==> !before(s[j], s[k])
    ensures forall j :: 0 <= j < k ==> before(s[k], s[j])
  {
    var p := s[..|s| - 1];
    if before(s[|s| - 1], p[kp]) {
      k := |s| - 1;
      BeatsBest(s, kp, before);
    } else {
      k := kp;
      KeepsBest(s, kp, before);
    }
  }

  /** A last element strictly before the best of the others is strictly before all of them,
      and nothing is strictly before it. */
  lemma BeatsBest<T>(s: seq<T>, kp: nat, before: (T, T) -> bool)
    requires OrderOn(s, before) && kp < |s| - 1
    requires forall j :: 0 <= j < |s| - 1 ==> !before(s[j], s[kp])
    requires before(s[|s| - 1], s[kp])
    ensures forall j :: 0 <= j < |s| - 1 ==> before(s[|s| - 1], s[j])
    ensures forall j :: 0 <= j < |s| ==> !before(s[j], s[|s| - 1])
  {
    var x := s[|s| - 1];
    forall j | 0 <= j < |s| ensures (j < |s| - 1 ==> before(x, s[j])) && !before(s[j], x) {
      assert s[j] in s && s[kp] in s && x in s;
    }
  }

  /** A last element not strictly before the best of the others leaves that best in place. */
  lemma KeepsBest<T>(s: seq<T>, kp: nat, before: (T, T) -> bool)
    requires kp < |s| - 1
    requires forall j :: 0 <= j < |s| - 1 ==> !before(s[j], s[kp])
    requires !before(s[|s| - 1], s[kp])
    ensures forall j :: 0 <= j < |s| ==> !before(s[j], s[kp])
  {
    forall j | 0 <= j < |s| ensures !before(s[j], s[kp]) {
      if j == |s| - 1 {
      }
    }
  }

  /** Lexicographic order of strings by character code, as `<` on JavaScript strings. */
  predicate StrLess(a: string, b: string)
  {
    if a == [] then b != []
    else if b == [] then false
    else if a[0] != b[0] then a[0] < b[0]
    else StrLess(a[1..], b[1..])
  }

  lemma {:induction false} StrLessAsymmetric(a: string, b: string)
    ensures StrLess(a, b) ==> !StrLess(b, a)
  {
    if a != [] && b != [] && a[0] == b[0] {
      StrLessAsymmetric(a[1..], b[1..]);
    }
  }

  lemma {:induction false} StrLessTransitive(a: string, b: string, c: string)
    ensures StrLess(a, b) && StrLess(b, c) ==> StrLess(a, c)
  {
    if a != [] && b != [] && c != [] && a[0] == b[0] == c[0] {
      StrLessTransitive(a[1..], b[1..], c[1..]);
    }
  }

  lemma {:induction false} StrLessTotal(a: string, b: string)
    ensures a == b || StrLess(a, b) || StrLess(b, a)
  {
    if a != [] && b != [] && a[0] == b[0] {
      StrLessTotal(a[1..], b[1..]);
      if a[1..] == b[1..] {
        assert a == [a[0]] + a[1..] && b == [b[0]] + b[1..];
      }
    }
  }

  /** Comparing elements by a string key is a strict weak order. */
  lemma StrKeyOrder<T(!new)>(key: T -> string)
    ensures StrictWeakOrder((x: T, y: T) => StrLess(key(x), key(y)))
  {
    var before := (x: T, y: T) => StrLess(key(x), key(y));
    forall a, b ensures before(a, b) ==> !before(b, a) {
      StrLessAsymmetric(key(a), key(b));
    }
    forall a, b, c ensures before(a, b) && before(b, c) ==> before(a, c) {
      StrLessTransitive(key(a), key(b), key(c));
    }
    forall a, b, c ensures !before(a, b) && !before(b, c) ==> !before(a, c) {
      StrLessTotal(key(a), key(b));
      StrLessTotal(key(b), key(c));
      StrLessTransitive(key(c), key(b), key(a));
      StrLessAsymmetric(key(a), key(c));
    }
  }

  /** Filtering a sorted sequence keeps it sorted. */
  lemma {:induction false} FilterSorted<T(!new)>(s: seq<T>, p: T -> bool, before: (T, T) -> bool)
    requires SortedBy(s, before)
    ensures SortedBy(Filter(s, p), before)
  {
    if s != [] {
      var front, x := s[..|s| - 1], s[|s| - 1];
      var f := Filter(front, p);
      FilterSorted(front, p, before);
      if p(x) {
        var r := f + [x];
        forall i, j | 0 <= i < j < |r| ensures !before(r[j], r[i]) {
          if j == |r| - 1 {
            assert r[i] == f[i] && f[i] in f;
            var k :| 0 <= k < |front| && front[k] == r[i];
            assert s[k] == r[i] && s[|s| - 1] == x;
          } else {
            assert r[i] == f[i] && r[j] == f[j];
          }
        }
      }
    }
  }

  /** The first k of a sorted sequence (`sort(...).slice(0, k)`): in order, drawn from the input,
      and no element left out comes strictly before one kept. */
  lemma SortedPrefix<T>(s: seq<T>, before: (T, T) -> bool, k: nat)
    requires OrderOn(s, before)
    ensures var all := SortBy(s, before); var top := all[..Min(k, |all|)];
      && |top| == Min(k, |s|) && SortedBy(top, before)
      && (forall i :: 0 <= i < |top| ==> top[i] in s)
      && (forall i, j :: 0 <= i < |top| <= j < |all| ==> !before(all[j], top[i]))
  {
    var all := SortBy(s, before);
    SortBySorted(s, before);
    forall i | 0 <= i < Min(k, |all|) ensures all[i] in s {
      assert all[i] in multiset(all);
    }
  }
}
