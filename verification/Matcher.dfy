/** pkg/match/match.go: an index of routing rules that answers as a scan of the rules would. */
module Matcher {
  import opened ConnTypes
  import opened Strings

  datatype Rule = Rule(pattern: string, upstream: string)

  datatype SuffixRule = SuffixRule(suffix: string, ruleIdx: nat)

  datatype PatternError = EmptyPattern | MultipleWildcards | WildcardNotLeading

  datatype Error = BadPattern(rule: nat, why: PatternError) | UnknownUpstream(rule: nat)

  datatype Result<+T> = Ok(value: T) | Err(error: Error)

  function ValidatePattern(p: string): Option<PatternError> {
    if p == "" then Some(EmptyPattern)
    else
      var stars := Count(p, '*');
      if stars == 0 then None
      else if stars > 1 then Some(MultipleWildcards)
      else if !HasPrefix(p, "*.") then Some(WildcardNotLeading)
      else None
  }

  /** Removes a trailing ":port", or the brackets of an IPv6 literal and what follows them. */
  function StripPort(host: string): string {
    if HasPrefix(host, "[") then
      var end := Index(host, ']');
      if end > 0 then host[1..end] else host
    else
      var i := LastIndex(host, ':');
      if i > 0 then host[..i] else host
  }

  // ---- the meaning of a rule list ----

  predicate Wild(pattern: string) { HasPrefix(Lower(pattern), "*.") }

  /** Whether a pattern covers a lowercase host without port. */
  predicate Covers(pattern: string, h: string) {
    if Wild(pattern) then HasSuffix(h, Lower(pattern)[1..]) else h == Lower(pattern)
  }

  /** The first rule at position from or later that covers h. */
  function Scan(rules: seq<Rule>, h: string, from: nat): Option<nat>
    requires from <= |rules|
    decreases |rules| - from
  {
    if from == |rules| then None
    else if Covers(rules[from].pattern, h) then Some(from)
    else Scan(rules, h, from + 1)
  }

  /** The host a request names, as the rules see it. */
  function Key(host: string): string { StripPort(Lower(host)) }

  /** The scan finds the lowest position whose pattern covers h, if any does. */
  lemma {:induction false} ScanIsLeast(rules: seq<Rule>, h: string, from: nat, best: Option<nat>)
    requires from <= |rules|
    decreases |rules| - from
    ensures
      best == Scan(rules, h, from) <==>
        match best
        case None => forall i :: from <= i < |rules| ==> !Covers(rules[i].pattern, h)
        case Some(b) =>
          from <= b < |rules| && Covers(rules[b].pattern, h) && forall i :: from <= i < b ==>
            !Covers(rules[i].pattern, h)
  {
    if from < |rules| {
      ScanIsLeast(rules, h, from + 1, best);
    }
  }

  /** A pattern with a leading "*." covers what ends in the rest of it after a dot; another one covers what
      differs from it only in case. */
  lemma CoversMeans(pattern: string, h: string)
    requires Lower(h) == h
    ensures !HasPrefix(pattern, "*.") ==> (Covers(pattern, h) <==> SameButCase(pattern, h))
    ensures HasPrefix(pattern, "*.") ==>
      (Covers(pattern, h) <==> exists x, d :: h == x + "." + d && SameButCase(pattern[2..], d))
  {
    LowerIsExact(pattern, h);
    LowerKeepsWild(pattern);
    if HasPrefix(pattern, "*.") {
      var d := Lower(pattern[2..]);
      assert Lower(pattern)[1..] == "." + d;
      LowerIsExact(pattern[2..], d);
      if Covers(pattern, h) {
        var x := h[..|h| - |d| - 1];
        assert h == x + "." + d;
      }
      forall x, d' | h == x + "." + d' && SameButCase(pattern[2..], d') ensures d' == d {
        LowerIsExact(pattern[2..], d');
        assert Lower(h)[|x| + 1..] == Lower(d');
        assert h[|x| + 1..] == d';
      }
    }
  }

  lemma LowerKeepsWild(pattern: string)
    ensures Wild(pattern) <==> HasPrefix(pattern, "*.")
  {
    if |pattern| >= 2 {
      assert pattern[..2] == [pattern[0], pattern[1]] && Lower(pattern)[..2] == [Lower(pattern)[0], Lower(pattern)[1]];
    }
  }

  /** The rules' patterns differ at most in case. */
  ghost predicate SameRules(rules: seq<Rule>, rules': seq<Rule>) {
    |rules| == |rules'| && forall i :: 0 <= i < |rules| ==> SameButCase(rules[i].pattern, rules'[i].pattern)
  }

  /** Case makes no difference, neither that of the host nor that of the patterns. */
  lemma {:induction false} CaseIsIgnored(rules: seq<Rule>, rules': seq<Rule>, host: string, host': string, from: nat)
    requires SameRules(rules, rules') && SameButCase(host, host') && from <= |rules|
    ensures Key(host) == Key(host') && Scan(rules, Key(host), from) == Scan(rules', Key(host'), from)
    decreases |rules| - from
  {
    LowerIsExact(host, host');
    if from < |rules| {
      LowerIsExact(rules[from].pattern, rules'[from].pattern);
      CaseIsIgnored(rules, rules', host, host', from + 1);
    }
  }

  // ---- the index ----

  class Matcher {
    var rules: seq<Rule>
    var exact: map<string, nat>
    var suffix: seq<SuffixRule>

    /** exact leads to the first rule of each exact pattern, suffix lists the wildcard rules. */
    ghost predicate Valid()
      reads this
    {
      Indexed(|rules|)
    }

    /** exact and suffix cover the first n rules. */
    ghost predicate Indexed(n: nat)
      reads this
      requires n <= |rules|
    {
      && Exact(rules, exact, n)
      && Suffixes(rules, suffix, n)
    }

    constructor ()
      ensures rules == [] && exact == map[] && suffix == []
    {
      rules, exact, suffix := [], map[], [];
    }

    /** The loop body of New: the next rule enters the index. */
    method Add(r: Rule)
      requires Valid()
      modifies this
      ensures Valid() && rules == old(rules) + [r]
    {
      var i := |rules|;
      var p := Lower(r.pattern);
      rules := rules + [r];
      if HasPrefix(p, "*.") {
        SuffixesGrow(rules[..i], r, suffix);
        suffix := suffix + [SuffixRule(p[1..], i)];
      } else {
        SuffixesStay(rules[..i], r, suffix);
        if p !in exact {
          exact := exact[p := i];
        }
      }
    }

    /** First answers as a scan of the rules does, which rule among equals or overlapping ones included. */
    method First(host: string) returns (r: Option<Rule>)
      requires Valid()
      ensures
        match Scan(rules, Key(host), 0)
        case None => r == None
        case Some(i) => i < |rules| && r == Some(rules[i])
    {
      var h := Lower(host);
      h := StripPort(h);
      var bestIdx: int := -1;
      if h in exact {
        bestIdx := exact[h];
      }
      for k := 0 to |suffix|
        invariant Best(rules, h, suffix[..k], bestIdx)
      {
        BestGrows(rules, h, suffix, k, bestIdx);
        var s := suffix[k];
        if HasSuffix(h, s.suffix) {
          if bestIdx == -1 || s.ruleIdx < bestIdx {
            bestIdx := s.ruleIdx;
          }
        }
      }
      assert suffix[..|suffix|] == suffix;
      BestIsScan(rules, exact, suffix, h, bestIdx);
      if bestIdx == -1 {
        return None;
      }
      return Some(rules[bestIdx]);
    }
  }

  /** What exact says about the first n rules. */
  ghost predicate Exact(rules: seq<Rule>, exact: map<string, nat>, n: nat)
    requires n <= |rules|
  {
    && (forall p :: p in exact ==>
          && exact[p] < n && !Wild(rules[exact[p]].pattern) && Lower(rules[exact[p]].pattern) == p
          && forall j :: 0 <= j < exact[p] ==> Wild(rules[j].pattern) || Lower(rules[j].pattern) != p)
    && (forall i :: 0 <= i < n && !Wild(rules[i].pattern) ==> Lower(rules[i].pattern) in exact)
  }

  /** What suffix says about the first n rules. */
  ghost predicate Suffixes(rules: seq<Rule>, suffix: seq<SuffixRule>, n: nat)
    requires n <= |rules|
  {
    && (forall k :: 0 <= k < |suffix| ==>
          suffix[k].ruleIdx < n && Wild(rules[suffix[k].ruleIdx].pattern) &&
          suffix[k].suffix == Lower(rules[suffix[k].ruleIdx].pattern)[1..])
    && (forall i :: 0 <= i < n && Wild(rules[i].pattern) ==> exists k :: 0 <= k < |suffix| && suffix[k].ruleIdx == i)
  }

  /** best is the lowest rule that covers h among the exact ones and those of the suffix entries seen. */
  ghost predicate Best(rules: seq<Rule>, h: string, seen: seq<SuffixRule>, best: int) {
    && -1 <= best < |rules|
    && (best >= 0 ==> Covers(rules[best].pattern, h))
    && (forall i :: 0 <= i < |rules| && !Wild(rules[i].pattern) && Covers(rules[i].pattern, h) ==> 0 <= best <= i)
    && (forall k :: 0 <= k < |seen| && HasSuffix(h, seen[k].suffix) ==> 0 <= best <= seen[k].ruleIdx)
  }

  /** One more suffix entry seen. */
  lemma BestGrows(rules: seq<Rule>, h: string, suffix: seq<SuffixRule>, k: nat, best: int)
    requires k < |suffix| && Suffixes(rules, suffix, |rules|) && Best(rules, h, suffix[..k], best)
    ensures
      var s := suffix[k];
      var better := HasSuffix(h, s.suffix) && (best == -1 || s.ruleIdx < best);
      Best(rules, h, suffix[..k + 1], if better then s.ruleIdx else best)
  {
    assert suffix[..k + 1] == suffix[..k] + [suffix[k]];
  }

  lemma SuffixesGrow(rules: seq<Rule>, r: Rule, suffix: seq<SuffixRule>)
    requires Suffixes(rules, suffix, |rules|) && Wild(r.pattern)
    ensures Suffixes(rules + [r], suffix + [SuffixRule(Lower(r.pattern)[1..], |rules|)], |rules| + 1)
  {
    var grown := suffix + [SuffixRule(Lower(r.pattern)[1..], |rules|)];
    forall m | 0 <= m <= |rules| && Wild((rules + [r])[m].pattern)
      ensures exists k :: 0 <= k < |grown| && grown[k].ruleIdx == m
    {
      if m < |rules| {
        var k :| 0 <= k < |suffix| && suffix[k].ruleIdx == m;
        assert grown[k].ruleIdx == m;
      } else {
        assert grown[|suffix|].ruleIdx == m;
      }
    }
  }

  lemma SuffixesStay(rules: seq<Rule>, r: Rule, suffix: seq<SuffixRule>)
    requires Suffixes(rules, suffix, |rules|) && !Wild(r.pattern)
    ensures Suffixes(rules + [r], suffix, |rules| + 1)
  {
    forall m | 0 <= m <= |rules| && Wild((rules + [r])[m].pattern)
      ensures exists k :: 0 <= k < |suffix| && suffix[k].ruleIdx == m
    {
      assert Wild(rules[m].pattern);
    }
  }

  lemma BestIsScan(rules: seq<Rule>, exact: map<string, nat>, suffix: seq<SuffixRule>, h: string, best: int)
    requires Suffixes(rules, suffix, |rules|) && Best(rules, h, suffix, best)
    ensures Scan(rules, h, 0) == if best < 0 then None else Some(best)
  {
    forall i | 0 <= i < |rules| && Covers(rules[i].pattern, h) ensures 0 <= best <= i {
      if Wild(rules[i].pattern) {
        var k :| 0 <= k < |suffix| && suffix[k].ruleIdx == i;
        assert HasSuffix(h, suffix[k].suffix);
      }
    }
    ScanIsLeast(rules, h, 0, if best < 0 then None else Some(best));
  }

  /** The patterns that New accepts: a name without '*', or "*." and a rest without one. */
  lemma PatternIsValid(p: string)
    ensures ValidatePattern(p) == None <==>
      p != "" && ('*' !in p || (HasPrefix(p, "*.") && '*' !in p[1..]))
    ensures ValidatePattern(p) == Some(EmptyPattern) <==> p == ""
    ensures ValidatePattern(p) == Some(WildcardNotLeading) <==> OneStar(p) && !HasPrefix(p, "*.")
  {
    StarsCount(p);
    if HasPrefix(p, "*.") {
      StarsCount(p[1..]);
    }
  }

  predicate OneStar(p: string) { exists i :: 0 <= i < |p| && p[i] == '*' && '*' !in p[..i] && '*' !in p[i + 1..] }

  lemma {:induction false} StarsCount(p: string)
    ensures Count(p, '*') == 0 <==> '*' !in p
    ensures Count(p, '*') == 1 <==> OneStar(p)
  {
    if p != "" {
      StarsCount(p[1..]);
      if p[0] == '*' {
        if '*' !in p[1..] {
          assert p[0] == '*' && '*' !in p[..0];
        }
        forall i | 0 < i < |p| ensures '*' in p[..i] {
          assert p[..i][0] == '*';
        }
      } else {
        if i :| 0 <= i < |p| && p[i] == '*' && '*' !in p[..i] && '*' !in p[i + 1..] {
          assert p[1..][..i - 1] == p[..i][1..] && p[1..][i..] == p[i + 1..];
        }
        if j :| 0 <= j < |p| - 1 && p[1..][j] == '*' && '*' !in p[1..][..j] && '*' !in p[1..][j + 1..] {
          assert p[..j + 1] == [p[0]] + p[1..][..j] && p[j + 2..] == p[1..][j + 1..];
        }
      }
    }
  }

  /** What New has against rule i, if anything. */
  function RuleError(rules: seq<Rule>, known: set<string>, i: nat): Option<Error>
    requires i < |rules|
  {
    var bad := ValidatePattern(rules[i].pattern);
    if bad.Some? then Some(BadPattern(i, bad.value))
    else if rules[i].upstream !in known then Some(UnknownUpstream(i))
    else None
  }

  /** The first thing New has against the rules from position from on. */
  function FirstError(rules: seq<Rule>, known: set<string>, from: nat): Option<Error>
    requires from <= |rules|
    decreases |rules| - from
  {
    if from == |rules| then None
    else if RuleError(rules, known, from).Some? then RuleError(rules, known, from)
    else FirstError(rules, known, from + 1)
  }

  /** New succeeds exactly if every rule is in order, and otherwise reports the first that is not. */
  lemma {:induction false} FirstErrorIsFirst(rules: seq<Rule>, known: set<string>, from: nat)
    requires from <= |rules|
    ensures
      match FirstError(rules, known, from)
      case None => forall i :: from <= i < |rules| ==> RuleError(rules, known, i) == None
      case Some(e) =>
        && from <= e.rule < |rules| && RuleError(rules, known, e.rule) == Some(e)
        && forall i :: from <= i < e.rule ==> RuleError(rules, known, i) == None
    decreases |rules| - from
  {
    if from < |rules| {
      FirstErrorIsFirst(rules, known, from + 1);
    }
  }

  /** New fails with the error of the first bad rule, and otherwise builds a matcher for exactly these rules. */
  method New(rules: seq<Rule>, known: set<string>) returns (r: Result<Matcher>)
    ensures
      match FirstError(rules, known, 0)
      case Some(e) => r == Err(e)
      case None => r.Ok? && fresh(r.value) && r.value.Valid() && r.value.rules == rules
  {
    var m := new Matcher();
    for i := 0 to |rules|
      invariant fresh(m) && m.Valid() && m.rules == rules[..i]
      invariant FirstError(rules, known, 0) == FirstError(rules, known, i)
    {
      var e := RuleError(rules, known, i);
      if e.Some? {
        return Err(e.value);
      }
      m.Add(rules[i]);
      OneMore(rules, i);
    }
    assert rules[..|rules|] == rules;
    return Ok(m);
  }

  lemma OneMore(rules: seq<Rule>, i: nat)
    requires i < |rules|
    ensures rules[..i + 1] == rules[..i] + [rules[i]]
  {
  }

  // ---- StripPort ----

  /** net.JoinHostPort. */
  function JoinHostPort(host: string, port: string): string {
    if ':' in host then "[" + host + "]:" + port else host + ":" + port
  }

  /** StripPort undoes JoinHostPort exactly for the hosts without ']' that need brackets, and for the
      non-empty ones not starting with '[' that do not. */
  lemma StripPortOfJoined(host: string, port: string)
    requires ':' !in port
    ensures
      StripPort(JoinHostPort(host, port)) == host <==>
        if ':' in host then ']' !in host else host != "" && host[0] != '['
  {
    var joined := JoinHostPort(host, port);
    if ':' in host {
      assert joined == "[" + host + "]:" + port;
      var end := Index(joined, ']');
      assert joined[|host| + 1] == ']';
      assert end >= 0;
      if ']' !in host {
        assert forall i :: 0 < i <= |host| ==> joined[i] == host[i - 1];
        assert end == |host| + 1;
        assert joined[1..end] == host;
      } else {
        var i := Index(host, ']');
        assert joined[i + 1] == ']';
        assert end <= |host|;
      }
    } else {
      assert joined == host + ":" + port;
      var i := LastIndex(joined, ':');
      assert joined[|host|] == ':';
      assert forall k :: |host| < k < |joined| ==> joined[k] == port[k - |host| - 1];
      assert i == |host|;
      assert joined[..i] == host;
      if HasPrefix(joined, "[") {
        var end := Index(joined, ']');
        if end > |host| {
          assert joined[1..end][|host| - 1] == ':';
        }
      }
    }
  }

  /** A host without port is left as it is exactly if it has no ':' after its first character, or is an
      unclosed bracket. A bare IPv6 address, which both servers pass on, is truncated. */
  lemma StripPortOfBare(host: string)
    ensures
      StripPort(host) == host <==>
        if HasPrefix(host, "[") then ']' !in host else host == "" || ':' !in host[1..]
  {
    if !HasPrefix(host, "[") && host != "" {
      var i := LastIndex(host, ':');
      assert host == [host[0]] + host[1..];
      if ':' in host[1..] {
        var k :| 0 <= k < |host| - 1 && host[1..][k] == ':';
        assert host[k + 1] == ':';
        assert i > 0;
      }
      if i > 0 {
        assert host[1..][i - 1] == ':';
      }
    }
  }

  // ---- exact rules ----

  /** An exact rule for a host covers that host, given bare, exactly if StripPort leaves it as it is. */
  lemma RuleCoversBare(host: string)
    requires !Wild(host)
    ensures
      Covers(host, Key(host)) <==>
        if HasPrefix(host, "[") then ']' !in host else host == "" || ':' !in host[1..]
  {
    var h := Lower(host);
    StripPortOfBare(h);
    LowerKeeps(host);
    assert host != "" ==> h[1..] == Lower(host[1..]);
    if host != "" {
      LowerKeeps(host[1..]);
    }
  }

  /** Given with a port, as net.JoinHostPort writes it, an exact rule for the host covers it in more cases. */
  lemma RuleCoversJoined(host: string, port: string)
    requires !Wild(host) && ':' !in port
    ensures
      Covers(host, Key(JoinHostPort(host, port))) <==>
        if ':' in host then ']' !in host else host != "" && host[0] != '['
  {
    LowerKeeps(host);
    LowerKeeps(port);
    assert Lower(JoinHostPort(host, port)) == JoinHostPort(Lower(host), Lower(port));
    StripPortOfJoined(Lower(host), Lower(port));
  }

  /** Lower-casing adds and removes no punctuation. */
  lemma LowerKeeps(s: string)
    ensures forall c :: c in {':', '[', ']'} ==> (c in Lower(s) <==> c in s)
    ensures HasPrefix(Lower(s), "[") <==> HasPrefix(s, "[")
  {
    forall c | c in {':', '[', ']'} ensures c in Lower(s) <==> c in s {
      if c in s {
        var i :| 0 <= i < |s| && s[i] == c;
        assert Lower(s)[i] == c;
      }
    }
  }

  /** An accepted rule for the address ::1 does not cover that address as the two servers pass it on, without
      brackets; it would with brackets and a port. */
  lemma BareIPv6IsMissed()
    ensures FirstError([Rule("::1", "vpn")], {"vpn"}, 0) == None
    ensures Scan([Rule("::1", "vpn")], Key("::1"), 0) == None
    ensures Scan([Rule("::1", "vpn")], Key(JoinHostPort("::1", "443")), 0) == Some(0)
  {
    var rules := [Rule("::1", "vpn")];
    assert Lower("::1") == "::1" && "::1"[0] == ':' && "*."[0] == '*';
    assert "443" == ['4', '4', '3'];
    RuleCoversBare("::1");
    RuleCoversJoined("::1", "443");
    assert "::1"[1..][0] == ':';
    assert Scan(rules, Key("::1"), 1) == None;
    assert RuleError(rules, {"vpn"}, 0) == None;
  }
}
