/** Duration texts: `fmtShort` and `fmtDuration` of the popup (from seconds) and `fmtHM` of the
    student page (from minutes), with a reader for the texts they produce. */
module Format {
  import opened Common
  import opened Text

  /** `fmtShort`: whole non-negative seconds as "Hh Mm", "Mm" or "Ss" (the largest non-zero
      unit decides; seconds are dropped once there is a minute). */
  function FmtShort(sec: real): string
  {
    var t := Max(0, sec.Floor);
    var h, m := t / 3600, (t % 3600) / 60;
    if h != 0 then JoinSpace([Digits(h) + "h", Digits(m) + "m"])
    else if m != 0 then Digits(m) + "m"
    else Digits(t) + "s"
  }

  /** `fmtDuration`: the same, always ending with the seconds. */
  function FmtDuration(sec: real): string
  {
    var t := Max(0, sec.Floor);
    var h, m, s := t / 3600, (t % 3600) / 60, t % 60;
    if h != 0 then Digits(h) + "h" + " " + JoinSpace([Digits(m) + "m", Digits(s) + "s"])
    else if m != 0 then JoinSpace([Digits(m) + "m", Digits(s) + "s"])
    else Digits(s) + "s"
  }

  /** `fmtHM`: minutes rounded half up and clamped at 0, as "Hh Mm" or "Mm". */
  function FmtHM(mins: real): string
  {
    var t := Max(0, Round(mins));
    var h, m := t / 60, t % 60;
    if h != 0 then JoinSpace([Digits(h) + "h", Digits(m) + "m"]) else Digits(m) + "m"
  }

  /** The parts separated by single spaces, as the template literals `${h}h ${m}m` lay them out. */
  function JoinSpace(parts: seq<string>): string
  {
    JoinWith(" ", parts)
  }

  // ---------------------------------------------------------------------------------------
  // Reading a duration text back

  /** `text.split(" ")`. */
  function SplitSpace(s: string): (parts: seq<string>)
    ensures parts != []
  {
    if s == [] then [[]]
    else if s[0] == ' ' then [[]] + SplitSpace(s[1..])
    else
      var r := SplitSpace(s[1..]);
      [[s[0]] + r[0]] + r[1..]
  }

  /** Seconds per unit letter. */
  function UnitWeight(u: char): int
  {
    if u == 'h' then 3600 else if u == 'm' then 60 else 1
  }

  predicate IsUnit(u: char) { u == 'h' || u == 'm' || u == 's' }

  /** One group "<digits><unit>" as seconds. */
  function ParseGroup(tok: string): Option<int>
  {
    if |tok| >= 2 && IsUnit(tok[|tok| - 1]) && forall i :: 0 <= i < |tok| - 1 ==> IsDigit(tok[i])
    then Some(ParseDigits(tok[..|tok| - 1]) * UnitWeight(tok[|tok| - 1]))
    else None
  }

  function ParseGroups(toks: seq<string>): Option<int>
  {
    if toks == [] then Some(0)
    else
      var first, rest := ParseGroup(toks[0]), ParseGroups(toks[1..]);
      if first.Some? && rest.Some? then Some(first.value + rest.value) else None
  }

  /** The number of seconds a duration text such as "2h 5m 7s" stands for. */
  function ParseDuration(text: string): Option<int>
  {
    ParseGroups(SplitSpace(text))
  }

  lemma {:induction false} SplitNoSpace(a: string)
    requires ' ' !in a
    ensures SplitSpace(a) == [a]
  {
    if a != [] {
      SplitNoSpace(a[1..]);
      assert a == [a[0]] + a[1..];
    }
  }

  lemma {:induction false} SplitJoin(a: string, b: string)
    requires ' ' !in a
    ensures SplitSpace(a + " " + b) == [a] + SplitSpace(b)
  {
    if a == [] {
      assert a + " " + b == " " + b;
      assert (" " + b)[1..] == b;
    } else {
      var s := a + " " + b;
      assert s[0] == a[0] && s[1..] == a[1..] + " " + b;
      SplitJoin(a[1..], b);
      assert a == [a[0]] + a[1..];
    }
  }

  lemma DigitsNoSpace(n: nat)
    ensures ' ' !in Digits(n)
  {
  }

  /** "<n><u>" reads back as n units. */
  lemma GroupRoundTrip(n: nat, u: char)
    requires IsUnit(u)
    ensures ' ' !in Digits(n) + [u]
    ensures ParseGroup(Digits(n) + [u]) == Some(n * UnitWeight(u))
  {
    var tok := Digits(n) + [u];
    assert tok[..|tok| - 1] == Digits(n);
    DigitsRoundTrip(n);
    DigitsNoSpace(n);
  }

  lemma GroupsCons(t: string, rest: seq<string>, a: int, b: int)
    requires ParseGroup(t) == Some(a) && ParseGroups(rest) == Some(b)
    ensures ParseGroups([t] + rest) == Some(a + b)
  {
    assert ([t] + rest)[0] == t && ([t] + rest)[1..] == rest;
  }

  /** Splitting joined space-free parts gives the parts back. */
  lemma {:induction false} SplitJoinSpace(parts: seq<string>)
    requires parts != [] && forall i :: 0 <= i < |parts| ==> ' ' !in parts[i]
    ensures SplitSpace(JoinSpace(parts)) == parts
  {
    if |parts| == 1 {
      SplitNoSpace(parts[0]);
    } else {
      SplitJoinSpace(parts[1..]);
      SplitJoin(parts[0], JoinSpace(parts[1..]));
      assert parts == [parts[0]] + parts[1..];
    }
  }

  /** One group "<a><x>" read as a whole text. */
  lemma OneGroup(a: nat, x: char)
    requires IsUnit(x)
    ensures ParseDuration(Digits(a) + [x]) == Some(a * UnitWeight(x))
  {
    var g := Digits(a) + [x];
    GroupRoundTrip(a, x);
    SplitNoSpace(g);
    GroupsCons(g, [], a * UnitWeight(x), 0);
    assert [g] + [] == [g];
  }

  /** A space-free readable group in front of a readable text adds its value. */
  lemma FrontGroup(g: string, tail: string, v: int, w: int)
    requires ' ' !in g && ParseGroup(g) == Some(v) && ParseDuration(tail) == Some(w)
    ensures ParseDuration(g + " " + tail) == Some(v + w)
  {
    SplitJoin(g, tail);
    GroupsCons(g, SplitSpace(tail), v, w);
  }

  /** Two space-free readable groups joined by a space read back as the sum of their values. */
  lemma TwoParts(g1: string, v1: int, g2: string, v2: int)
    requires ' ' !in g1 && ParseGroup(g1) == Some(v1)
    requires ' ' !in g2 && ParseGroup(g2) == Some(v2)
    ensures ParseDuration(JoinSpace([g1, g2])) == Some(v1 + v2)
  {
    SplitNoSpace(g2);
    GroupsCons(g2, [], v2, 0);
    assert [g2] + [] == [g2];
    assert [g1, g2][1..] == [g2];
    assert JoinWith(" ", [g2]) == g2;
    assert JoinSpace([g1, g2]) == JoinWith(" ", [g1, g2]) == g1 + " " + JoinWith(" ", [g2]);
    FrontGroup(g1, g2, v1, v2);
  }

  /** Two groups "<a><x> <b><y>" read back as the sum of their values. */
  lemma TwoGroups(a: nat, x: char, b: nat, y: char)
    requires IsUnit(x) && IsUnit(y)
    ensures ParseDuration(JoinSpace([Digits(a) + [x], Digits(b) + [y]]))
         == Some(a * UnitWeight(x) + b * UnitWeight(y))
  {
    GroupRoundTrip(a, x);
    GroupRoundTrip(b, y);
    TwoParts(Digits(a) + [x], a * UnitWeight(x), Digits(b) + [y], b * UnitWeight(y));
  }

  lemma HourSplit(t: int)
    requires t >= 0
    ensures t / 3600 * 3600 + (t % 3600) / 60 * 60 + t % 60 == t
    ensures (t % 3600) / 60 < 60
    ensures t / 3600 == 0 && (t % 3600) / 60 == 0 ==> t < 60
  {
    var q, r := t / 3600, t % 3600;
    var m, s := r / 60, r % 60;
    assert t == q * 3600 + r;
    assert r == m * 60 + s;
    MinuteRemainder(t, q * 60 + m, s);
  }

  /** Division by 60 with a remainder in [0, 60) is unique. */
  lemma MinuteRemainder(t: int, q: int, r: int)
    requires 0 <= r < 60 && t == q * 60 + r
    ensures t % 60 == r
  {
  }

  /** An hours group in front of a readable text adds its hours. */
  lemma FrontHours(h: nat, tail: string, w: int)
    requires ParseDuration(tail) == Some(w)
    ensures ParseDuration(Digits(h) + "h" + " " + tail) == Some(h * 3600 + w)
  {
    GroupRoundTrip(h, 'h');
    assert UnitWeight('h') == 3600;
    FrontGroup(Digits(h) + "h", tail, h * 3600, w);
  }

  /** "<m>m <s>s" reads back as m minutes and s seconds. */
  lemma MinSecGroups(m: nat, s: nat)
    ensures ParseDuration(JoinSpace([Digits(m) + "m", Digits(s) + "s"])) == Some(m * 60 + s)
  {
    TwoGroups(m, 'm', s, 's');
    assert UnitWeight('m') == 60 && UnitWeight('s') == 1;
  }

  /** `fmtDuration` loses nothing: the text reads back as the whole, clamped number of seconds. */
  lemma FmtDurationRoundTrip(sec: real)
    ensures ParseDuration(FmtDuration(sec)) == Some(Max(0, sec.Floor))
  {
    var t := Max(0, sec.Floor);
    var h, m, s := t / 3600, (t % 3600) / 60, t % 60;
    HourSplit(t);
    if h != 0 {
      MinSecGroups(m, s);
      FrontHours(h, JoinSpace([Digits(m) + "m", Digits(s) + "s"]), m * 60 + s);
    } else if m != 0 {
      MinSecGroups(m, s);
    } else {
      OneGroup(s, 's');
      assert UnitWeight('s') == 1;
    }
  }

  /** `fmtShort` shows the whole seconds below a minute and drops the seconds from a minute on. */
  lemma FmtShortRoundTrip(sec: real)
    ensures var t := Max(0, sec.Floor);
      ParseDuration(FmtShort(sec)) == Some(if t < 60 then t else t - t % 60)
  {
    var t := Max(0, sec.Floor);
    var h, m := t / 3600, (t % 3600) / 60;
    HourSplit(t);
    if h != 0 {
      assert FmtShort(sec) == JoinSpace([Digits(h) + "h", Digits(m) + "m"]);
      TwoGroups(h, 'h', m, 'm');
      assert UnitWeight('h') == 3600 && UnitWeight('m') == 60;
      assert h * 3600 + m * 60 == t - t % 60;
    } else if m != 0 {
      assert FmtShort(sec) == Digits(m) + "m";
      assert m * 60 == t - t % 60;
      OneGroup(m, 'm');
    } else {
      assert FmtShort(sec) == Digits(t) + "s";
      OneGroup(t, 's');
    }
  }

  /** `fmtHM` reads back as the rounded, clamped minutes. */
  lemma FmtHMRoundTrip(mins: real)
    ensures ParseDuration(FmtHM(mins)) == Some(60 * Max(0, Round(mins)))
  {
    var t := Max(0, Round(mins));
    var h, m := t / 60, t % 60;
    assert t == h * 60 + m;
    if h != 0 {
      TwoGroups(h, 'h', m, 'm');
      assert UnitWeight('h') == 3600 && UnitWeight('m') == 60;
    } else {
      OneGroup(m, 'm');
      assert UnitWeight('m') == 60;
    }
  }
}
