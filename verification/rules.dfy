/** The rule matcher: does a URL belong to a tracked "AI tool" site?
    `urlMatchesRules` in the background service (a loop with early return over the rule set)
    and its mirror in the popup (an `Array.prototype.some` over the rule list). */
module Rules {
  import opened Common
  import opened Text

  /** `normalizeRule`: the rule trimmed and lower-cased. */
  function NormalizeRule(r: string): (n: string)
    ensures |n| <= |r|
    ensures forall i :: 0 <= i < |n| ==> !('A' <= n[i] <= 'Z')
    ensures n == [] || (!IsSpace(n[0]) && !IsSpace(n[|n| - 1]))
  {
    Lower(Trim(r))
  }

  predicate DomainChar(c: char)
  {
    'a' <= c <= 'z' || '0' <= c <= '9' || c == '.' || c == '-'
  }

  /** `isDomainLike`: the rule matches /^[a-z0-9.-]+$/. */
  predicate IsDomainLike(rule: string)
  {
    |rule| > 0 && forall i :: 0 <= i < |rule| ==> DomainChar(rule[i])
  }

  /** `rule.replace(/^\*+/, "")`: the rule without its leading run of '*'. */
  function StripStars(rule: string): (token: string)
    ensures |token| <= |rule| && token == rule[|rule| - |token|..]
    ensures forall i :: 0 <= i < |rule| - |token| ==> rule[i] == '*'
    ensures token == [] || token[0] != '*'
  {
    if rule != [] && rule[0] == '*' then StripStars(rule[1..]) else rule
  }

  /** Verdict of one raw rule on a lower-cased host and lower-cased full URL (one loop turn). */
  predicate RuleHit(host: string, full: string, r: string)
  {
    var rule := NormalizeRule(r);
    if rule == [] then false
    else if IsDomainLike(rule) then host == rule || EndsWith(host, "." + rule)
    else
      var token := StripStars(rule);
      token != [] && Contains(full, token)
  }

  /** Some rule of the collection hits. */
  predicate AnyRuleHit(host: string, full: string, rules: seq<string>)
  {
    rules != [] && (RuleHit(host, full, rules[0]) || AnyRuleHit(host, full, rules[1..]))
  }

  lemma {:induction false} AnyRuleHitIff(host: string, full: string, rules: seq<string>)
    ensures AnyRuleHit(host, full, rules) <==> exists i :: 0 <= i < |rules| && RuleHit(host, full, rules[i])
  {
    if rules != [] {
      AnyRuleHitIff(host, full, rules[1..]);
      if !RuleHit(host, full, rules[0]) && (exists i :: 0 <= i < |rules| && RuleHit(host, full, rules[i])) {
        var i :| 0 <= i < |rules| && RuleHit(host, full, rules[i]);
        assert rules[1..][i - 1] == rules[i];
      }
    }
  }

  /** What the background matcher decides for `url` whose parsed host is `host`. */
  predicate Tracked(url: string, host: string, rules: seq<string>)
  {
    url != [] && AnyRuleHit(Lower(host), Lower(url), rules)
  }

  /** `urlMatchesRules` of the background service: false for an empty URL, otherwise true as soon
      as one rule of the set hits; blank rules are skipped. */
  method UrlMatchesRules(url: string, host: string, rules: seq<string>) returns (m: bool)
    ensures m <==> Tracked(url, host, rules)
  {
    if url == [] {
      return false;
    }
    var h := Lower(host);
    var full := Lower(url);
    var i := 0;
    while i < |rules|
      invariant 0 <= i <= |rules|
      invariant AnyRuleHit(h, full, rules) == AnyRuleHit(h, full, rules[i..])
    {
      AnyRuleHitStep(h, full, rules, i);
      var hit := RuleVerdict(h, full, rules[i]);
      if hit {
        return true;
      }
      i := i + 1;
    }
    assert rules[i..] == [];
    return false;
  }

  /** The body of one loop turn: blank rules are skipped, domain-like rules test the host,
      other rules test the URL for the rule without its leading stars. */
  method RuleVerdict(h: string, full: string, r: string) returns (hit: bool)
    ensures hit == RuleHit(h, full, r)
  {
    var rule := NormalizeRule(r);
    hit := false;
    if rule != [] {
      if IsDomainLike(rule) {
        hit := h == rule || EndsWith(h, "." + rule);
      } else {
        var token := StripStars(rule);
        hit := token != [] && Contains(full, token);
      }
    }
  }

  /** One loop turn: the rules from i on hit when rule i does or the rules after it do. */
  lemma AnyRuleHitStep(host: string, full: string, rules: seq<string>, i: nat)
    requires i < |rules|
    ensures AnyRuleHit(host, full, rules[i..]) == (RuleHit(host, full, rules[i]) || AnyRuleHit(host, full, rules[i + 1..]))
  {
    assert rules[i..][0] == rules[i] && rules[i..][1..] == rules[i + 1..];
  }

  /** A domain rule hits exactly the host itself and the hosts below it: the match ends on a
      label boundary, so `notexample.com` is not under `example.com`. */
  lemma DomainRuleIff(host: string, full: string, r: string)
    requires IsDomainLike(NormalizeRule(r))
    ensures var rule := NormalizeRule(r);
      RuleHit(host, full, r) <==>
        EndsWith(host, rule) && (|host| == |rule| || host[|host| - |rule| - 1] == '.')
  {
    var rule := NormalizeRule(r);
    assert RuleHit(host, full, r) == (host == rule || EndsWith(host, "." + rule));
    DotSuffix(host, rule);
    WholeSuffix(host, rule);
  }

  /** A suffix as long as the text is the text. */
  lemma WholeSuffix(host: string, rule: string)
    ensures host == rule <==> EndsWith(host, rule) && |host| == |rule|
  {
    if EndsWith(host, rule) && |host| == |rule| {
      assert host == host[|host| - |rule|..];
    }
  }

  /** Ending in "." + rule is ending in rule with a dot just before it. */
  lemma DotSuffix(host: string, rule: string)
    ensures EndsWith(host, "." + rule) <==>
      EndsWith(host, rule) && |host| > |rule| && host[|host| - |rule| - 1] == '.'
  {
    if EndsWith(host, rule) && |host| > |rule| && host[|host| - |rule| - 1] == '.' {
      assert host[|host| - |rule| - 1..] == [host[|host| - |rule| - 1]] + host[|host| - |rule|..];
    }
    if EndsWith(host, "." + rule) {
      assert host[|host| - |rule|..] == ("." + rule)[1..];
    }
  }

  /** A pattern rule is a case-insensitive substring test on the whole URL once its leading
      '*' run is removed; a rule of stars only never hits. */
  lemma PatternRuleIff(host: string, full: string, r: string)
    requires NormalizeRule(r) != [] && !IsDomainLike(NormalizeRule(r))
    ensures RuleHit(host, full, r) <==>
      StripStars(NormalizeRule(r)) != [] && Contains(full, StripStars(NormalizeRule(r)))
  {
  }

  /** A blank rule hits nothing. */
  lemma BlankRuleNeverHits(host: string, full: string, r: string)
    requires Trim(r) == []
    ensures !RuleHit(host, full, r)
  {
  }

  /** A rule already in normal form (no surrounding blanks, no capitals) is its own normal form. */
  lemma NormalizeIdentity(r: string)
    requires r != [] && !IsSpace(r[0]) && !IsSpace(r[|r| - 1])
    requires forall i :: 0 <= i < |r| ==> !('A' <= r[i] <= 'Z')
    ensures NormalizeRule(r) == r
  {
    assert TrimStart(r) == r;
    assert TrimEnd(r) == r;
    assert Lower(r) == r;
  }

  /** A string without capitals is its own lower-case form. */
  lemma LowerIdentity(s: string)
    requires forall i :: 0 <= i < |s| ==> !('A' <= s[i] <= 'Z')
    ensures Lower(s) == s
  {
  }

  /** `Tracked` on a one-rule set is that rule's verdict on the lower-cased host and URL. */
  lemma TrackedSingle(url: string, host: string, r: string)
    ensures Tracked(url, host, [r]) <==> url != [] && RuleHit(Lower(host), Lower(url), r)
  {
    var rs := [r];
    assert rs[0] == r && rs[1..] == [];
    assert AnyRuleHit(Lower(host), Lower(url), rs) == RuleHit(Lower(host), Lower(url), r);
  }

  lemma ExampleComNormal()
    ensures NormalizeRule("example.com") == "example.com"
  {
    NormalizeIdentity("example.com");
  }

  lemma ExampleComDomain()
    ensures IsDomainLike("example.com")
  {
  }

  /** `example.com` tracks its subdomain `sub.example.com` on any URL of that host. */
  lemma SubdomainExample(url: string)
    requires url != []
    ensures Tracked(url, "sub.example.com", ["example.com"])
  {
    var rule, sub := "example.com", "sub.example.com";
    ExampleComNormal();
    ExampleComDomain();
    SubExampleHost();
    TrackedSingle(url, sub, rule);
  }

  lemma SubExampleHost()
    ensures Lower("sub.example.com") == "sub.example.com"
    ensures EndsWith("sub.example.com", "." + "example.com")
  {
    LowerIdentity("sub.example.com");
    var sub, rule := "sub.example.com", "example.com";
    DotSuffix(sub, rule);
    assert sub[|sub| - |rule|..] == rule && sub[|sub| - |rule| - 1] == '.';
  }

  /** ... but not the look-alike host `notexample.com`. */
  lemma LookalikeExample(url: string)
    ensures !Tracked(url, "notexample.com", ["example.com"])
  {
    var rule, not := "example.com", "notexample.com";
    ExampleComNormal();
    ExampleComDomain();
    LowerIdentity(not);
    TrackedSingle(url, not, rule);
    DomainRuleIff(not, Lower(url), rule);
    assert not[|not| - |rule| - 1] == 't';
  }

  lemma StarFooNormal()
    ensures NormalizeRule("*foo") == "*foo"
  {
    NormalizeIdentity("*foo");
  }

  lemma StarFooToken()
    ensures !IsDomainLike("*foo") && StripStars("*foo") == "foo"
  {
    assert !DomainChar("*foo"[0]);
    assert StripStars("*foo") == StripStars("foo");
  }

  /** The pattern rule `*foo` tracks every URL whose lower-cased text contains `foo`. */
  lemma StarPatternExample(url: string, host: string)
    requires Contains(Lower(url), "foo")
    ensures Tracked(url, host, ["*foo"])
  {
    StarFooNormal();
    StarFooToken();
    PatternRuleIff(Lower(host), Lower(url), "*foo");
    TrackedSingle(url, host, "*foo");
    assert url != [];
  }

  /** `urlMatchesRules` of the popup: `(rules || []).some(...)`, with no separate empty-URL test. */
  predicate PopupMatches(url: string, host: string, rules: Option<seq<string>>)
  {
    match rules
    case None => false
    case Some(rs) => AnyRuleHit(Lower(host), Lower(url), rs)
  }

  /** With no rule list, or an empty one, the popup tracks nothing. */
  lemma PopupNoRules(url: string, host: string)
    ensures !PopupMatches(url, host, None) && !PopupMatches(url, host, Some([]))
  {
  }

  /** The popup and the background give the same verdict on every URL (the parser gives the
      empty URL the empty host). */
  lemma {:induction false} PopupAgreesWithBackground(url: string, host: string, rules: seq<string>)
    requires url == [] ==> host == []
    ensures PopupMatches(url, host, Some(rules)) <==> Tracked(url, host, rules)
  {
    if url == [] {
      NothingHitsEmpty(rules);
    }
  }

  lemma {:induction false} NothingHitsEmpty(rules: seq<string>)
    ensures !AnyRuleHit([], [], rules)
  {
    if rules != [] {
      NothingHitsEmpty(rules[1..]);
      var rule := NormalizeRule(rules[0]);
      if rule != [] && !IsDomainLike(rule) {
        var token := StripStars(rule);
        if token != [] {
          assert !(token <= []);
        }
      }
    }
  }
}
