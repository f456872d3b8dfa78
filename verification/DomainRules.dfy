/** The domain rules: parsing them, and matching a host against them (`DomainRules` and the functions
    after it in `src/routing_rules.rs`). */
module DomainRules {
  import opened Wrappers
  import opened Text

  /** `str::parse::<IpAddr>().is_ok()`. */
  type IpTest = string -> bool

  /** `trim_matches('.')`. */
  function TrimDots(s: string): (r: string)
    ensures |r| <= |s|
    ensures r != "" ==> r[0] != '.' && r[|r| - 1] != '.'
  {
    if s == "" then ""
    else if s[0] == '.' then TrimDots(s[1..])
    else if s[|s| - 1] == '.' then TrimDots(s[..|s| - 1])
    else s
  }

  /** `normalize_host_for_match`. */
  function Normalize(host: string): string {
    Lower(TrimDots(Trim(host)))
  }

  predicate IsDomainChar(c: char) {
    'a' <= c <= 'z' || 'A' <= c <= 'Z' || '0' <= c <= '9' || c == '-' || c == '.'
  }

  /** `is_domain_like`. */
  predicate IsDomainLike(domain: string, isIp: IpTest) {
    domain != "" && ':' !in domain && !isIp(domain) && forall c <- domain :: IsDomainChar(c)
  }

  /** `split(stops).next()`. */
  function UpTo(s: string, stops: set<char>): (r: string)
    ensures r <= s && forall c <- r :: c !in stops
  {
    if s == "" || s[0] in stops then "" else [s[0]] + UpTo(s[1..], stops)
  }

  function UsableDomain(domain: string, isIp: IpTest): Option<string> {
    if IsDomainLike(domain, isIp) then Some(domain) else None
  }

  /** `parse_proxy_rule_domain`. */
  function ParseProxyRule(line: string, isIp: IpTest): Option<string> {
    if StartsWith(line, "||") then ParseRuleBody(line[2..], isIp)
    else if StartsWith(line, ".") then ParseRuleBody(line[1..], isIp)
    else None
  }

  function ParseRuleBody(rule: string, isIp: IpTest): Option<string> {
    if '*' in rule then None
    else UsableDomain(Normalize(TrimDots(UpTo(rule, {'/', '^', '$'}))), isIp)
  }

  /** `parse_custom_domain_rule_domain`. */
  function ParseCustomRule(line: string, isIp: IpTest): Option<string> {
    UsableDomain(Normalize(Trim(UpTo(line, {'#'}))), isIp)
  }

  datatype Format = Gfwlist | Custom

  function ParseRule(format: Format, line: string, isIp: IpTest): Option<string> {
    if format.Gfwlist? then ParseProxyRule(line, isIp) else ParseCustomRule(line, isIp)
  }

  function Collect(format: Format, lines: seq<string>, isIp: IpTest): set<string> {
    if lines == [] then {}
    else
      var rule := ParseRule(format, lines[0], isIp);
      (if rule.Some? then {rule.value} else {}) + Collect(format, lines[1..], isIp)
  }

  /** `parse_gfwlist_text` without its check for no rules, and `parse_custom_domain_rules_text`. */
  function ParseText(format: Format, text: string, isIp: IpTest): set<string> {
    Collect(format, Lines(text), isIp)
  }

  // ---- Matching ----

  /** Whether what follows one of the dots of `host` from `i` on is a rule. */
  predicate ScanDots(domains: set<string>, host: string, i: nat)
    requires i <= |host|
    decreases |host| - i
  {
    i < |host| && ((host[i] == '.' && host[i + 1..] in domains) || ScanDots(domains, host, i + 1))
  }

  predicate MatchesNormal(domains: set<string>, host: string) {
    host != "" && (host in domains || ScanDots(domains, host, 0))
  }

  /** `DomainRules::matches`. */
  predicate Matches(domains: set<string>, host: string) {
    MatchesNormal(domains, Normalize(host))
  }

  predicate EndsWith(s: string, suffix: string) {
    |suffix| <= |s| && s[|s| - |suffix|..] == suffix
  }

  /** The rule itself or one of its subdomains. */
  predicate Under(host: string, domain: string) {
    host == domain || EndsWith(host, "." + domain)
  }

  class Rules {
    var domains: set<string>

    constructor (domains: set<string>)
      ensures this.domains == domains
    {
      this.domains := domains;
    }

    method Extend(more: set<string>)
      modifies this
      ensures domains == old(domains) + more
    {
      domains := domains + more;
    }
  }

  /** `AutoRuleLoader::download_and_parse`, of the list decoded to text and the file of custom rules
      read, if there is one: a list that cannot be decoded or has no usable rule is refused, and so is
      one beside a custom file that cannot be read; the custom file may be empty. */
  method LoadRules(list: Result<string>, custom: Option<Result<string>>, isIp: IpTest) returns (rules: Result<Rules>)
    ensures rules.Ok? <==>
              && list.Ok? && ParseText(Gfwlist, list.value, isIp) != {}
              && (custom.Some? ==> custom.value.Ok?)
    ensures rules.Ok? ==>
              && fresh(rules.value)
              && rules.value.domains == ParseText(Gfwlist, list.value, isIp)
                                        + if custom.Some? then ParseText(Custom, custom.value.value, isIp) else {}
  {
    if list.Err? {
      return Err;
    }
    var domains := ParseText(Gfwlist, list.value, isIp);
    if domains == {} {
      return Err;
    }
    var loaded := new Rules(domains);
    if custom.Some? {
      if custom.value.Err? {
        return Err;
      }
      loaded.Extend(ParseText(Custom, custom.value.value, isIp));
    }
    rules := Ok(loaded);
  }

  // ---- The matcher equals its specification ----

  lemma {:induction false} ScanFinds(domains: set<string>, host: string, i: nat)
    requires i <= |host|
    ensures ScanDots(domains, host, i) <==> exists k :: i <= k < |host| && host[k] == '.' && host[k + 1..] in domains
    decreases |host| - i
  {
    if i < |host| {
      ScanFinds(domains, host, i + 1);
    }
  }

  lemma DotBefore(host: string, k: nat, domain: string)
    requires k < |host| && |host| - k == |domain| + 1
    ensures EndsWith(host, "." + domain) <==> host[k] == '.' && host[k + 1..] == domain
  {
    assert host[k..] == [host[k]] + host[k + 1..];
    if EndsWith(host, "." + domain) {
      assert host[k..][0] == '.' && host[k..][1..] == domain;
    }
  }

  ghost predicate SomeCovers(domains: set<string>, host: string) {
    exists domain <- domains :: Under(host, domain)
  }

  lemma ScanIsCovered(domains: set<string>, host: string)
    requires ScanDots(domains, host, 0)
    ensures SomeCovers(domains, host)
  {
    ScanFinds(domains, host, 0);
    var k :| 0 <= k < |host| && host[k] == '.' && host[k + 1..] in domains;
    var domain := host[k + 1..];
    DotBefore(host, k, domain);
    assert Under(host, domain);
  }

  lemma CoveredIsScanned(domains: set<string>, host: string, domain: string)
    requires domain in domains && EndsWith(host, "." + domain)
    ensures ScanDots(domains, host, 0)
  {
    ScanFinds(domains, host, 0);
    var k := |host| - |domain| - 1;
    DotBefore(host, k, domain);
  }

  lemma NormalMatchesExactly(domains: set<string>, host: string)
    ensures MatchesNormal(domains, host) <==> host != "" && SomeCovers(domains, host)
  {
    if host in domains {
      assert Under(host, host);
    } else if ScanDots(domains, host, 0) {
      ScanIsCovered(domains, host);
    } else if SomeCovers(domains, host) {
      var domain :| domain in domains && Under(host, domain);
      CoveredIsScanned(domains, host, domain);
    }
  }

  /** A host is matched exactly when its normal form is a rule or ends with a dot and a rule. */
  lemma MatchesExactly(domains: set<string>, host: string)
    ensures Matches(domains, host) <==> Normalize(host) != "" && SomeCovers(domains, Normalize(host))
  {
    NormalMatchesExactly(domains, Normalize(host));
  }

  lemma ExtendOnlyAdds(domains: set<string>, more: set<string>, host: string)
    ensures Matches(domains + more, host) <==> Matches(domains, host) || Matches(more, host)
  {
    MatchesExactly(domains, host);
    MatchesExactly(more, host);
    MatchesExactly(domains + more, host);
  }

  // ---- Normal forms ----

  lemma LowerTwice(s: string)
    ensures Lower(Lower(s)) == Lower(s)
  {
  }

  lemma LowerKeeps(c: char)
    ensures IsWhitespace(LowerChar(c)) <==> IsWhitespace(c)
    ensures LowerChar(c) == '.' <==> c == '.'
  {
  }

  lemma LowerOfJoin(a: string, b: string)
    ensures Lower(a + b) == Lower(a) + Lower(b)
  {
  }

  lemma TrimDotsNothing(s: string)
    requires s != "" ==> s[0] != '.' && s[|s| - 1] != '.'
    ensures TrimDots(s) == s
  {
  }

  predicate BareEnds(s: string) {
    s != "" ==> !IsWhitespace(s[0]) && !IsWhitespace(s[|s| - 1])
  }

  /** Normalising is idempotent on a host exactly when no whitespace comes to light once its dots are
      gone; it does in ". a". */
  lemma NormalizeTwice(host: string)
    ensures Normalize(Normalize(host)) == Normalize(host) <==> BareEnds(TrimDots(Trim(host)))
  {
    var t := TrimDots(Trim(host));
    var n := Lower(t);
    if t != "" {
      LowerKeeps(t[0]);
      LowerKeeps(t[|t| - 1]);
    }
    TrimIsIdentity(n);
    if BareEnds(t) {
      TrimDotsNothing(n);
      LowerTwice(t);
    } else {
      assert |Trim(n)| < |n|;
      assert |TrimDots(Trim(n))| < |n|;
    }
  }

  lemma NotIdempotent()
    ensures Normalize(". a") == " a" && Normalize(" a") == "a"
  {
    assert Trim(". a") == ". a";
    assert TrimDots(". a") == TrimDots(" a") == " a";
    assert Trim("a") == "a" && Trim(" a") == Trim("a");
    assert Lower(" a") == " a" && Lower("a") == "a";
  }

  predicate IsNormal(domain: string) {
    && NoWhitespace(domain) && Lower(domain) == domain
    && (domain != "" ==> domain[0] != '.' && domain[|domain| - 1] != '.')
  }

  lemma NormalIsFixed(domain: string)
    requires IsNormal(domain)
    ensures Normalize(domain) == domain
  {
    TrimNothing(domain);
    TrimDotsNothing(domain);
  }

  lemma UsableIsNormal(host: string, isIp: IpTest)
    requires IsDomainLike(Normalize(host), isIp)
    ensures IsNormal(Normalize(host))
  {
    var t := TrimDots(Trim(host));
    LowerTwice(t);
    LowerKeeps(t[0]);
    LowerKeeps(t[|t| - 1]);
    assert NoWhitespace(Lower(t));
  }

  /** Every rule that is loaded, from either kind of list, looks like a domain and is its own normal
      form. */
  lemma RuleIsUsable(format: Format, line: string, isIp: IpTest)
    requires ParseRule(format, line, isIp).Some?
    ensures var rule := ParseRule(format, line, isIp).value;
            IsUsable(rule, isIp) && IsDomainLike(rule, isIp) && IsNormal(rule) && Normalize(rule) == rule
  {
    if format.Custom? {
      UsableIsNormal(Trim(UpTo(line, {'#'})), isIp);
    } else {
      var rule := if StartsWith(line, "||") then line[2..] else line[1..];
      UsableIsNormal(TrimDots(UpTo(rule, {'/', '^', '$'})), isIp);
    }
    NormalIsFixed(ParseRule(format, line, isIp).value);
  }

  // ---- What lines mean ----

  lemma {:induction false} UpToStop(name: string, tail: string, stops: set<char>)
    requires (forall c <- name :: c !in stops) && (tail != "" ==> tail[0] in stops)
    ensures UpTo(name + tail, stops) == name
  {
    if name == "" {
      assert name + tail == tail;
    } else {
      assert name[0] in name;
      assert (name + tail)[1..] == name[1..] + tail;
      UpToStop(name[1..], tail, stops);
    }
  }

  /** A domain in lower case, by the codes of its characters. */
  predicate IsUsable(domain: string, isIp: IpTest) {
    && domain != "" && !isIp(domain) && domain[0] != '.' && domain[|domain| - 1] != '.'
    && forall c <- domain :: var code := c as int; 97 <= code <= 122 || 48 <= code <= 57 || code == 45 || code == 46
  }

  lemma LowerByCode(c: char)
    ensures LowerChar(c) as int == if 65 <= c as int <= 90 then c as int + 32 else c as int
  {
  }

  lemma UsableIsWritten(name: string, isIp: IpTest)
    requires IsUsable(Lower(name), isIp)
    ensures name != "" && NoWhitespace(name) && name[0] != '.' && name[|name| - 1] != '.'
    ensures forall c <- name :: c !in {'/', '^', '$', '#', '*', ':'}
    ensures IsDomainLike(Lower(name), isIp)
  {
    var domain := Lower(name);
    forall c <- name ensures !IsWhitespace(c) && c !in {'/', '^', '$', '#', '*', ':'} {
      var i :| 0 <= i < |name| && name[i] == c;
      assert domain[i] in domain;
    }
    assert domain[0] == LowerChar(name[0]) && domain[|domain| - 1] == LowerChar(name[|name| - 1]);
  }

  lemma UsableIsFixed(name: string, isIp: IpTest)
    requires IsUsable(Lower(name), isIp)
    ensures Normalize(TrimDots(name)) == Lower(name) && Normalize(Trim(name)) == Lower(name)
  {
    UsableIsWritten(name, isIp);
    TrimDotsNothing(name);
    TrimNothing(name);
  }

  lemma RuleBodyMeans(before: string, name: string, after: string, tail: string, isIp: IpTest)
    requires IsUsable(Lower(name), isIp) && '*' !in tail && (tail != "" ==> tail[0] in {'/', '^', '$'})
    requires OnlyDots(before) && OnlyDots(after)
    ensures ParseRuleBody(before + name + after + tail, isIp) == Some(Lower(name))
  {
    UsableIsWritten(name, isIp);
    var dotted := before + name + after;
    forall c <- dotted ensures c !in {'/', '^', '$', '*'} {
      assert c in before || c in name || c in after;
    }
    UpToStop(dotted, tail, {'/', '^', '$'});
    DotsAround(before, name, after);
    TrimNothing(name);
    TrimDotsNothing(name);
  }

  predicate OnlyDots(s: string) {
    forall i | 0 <= i < |s| :: s[i] == '.'
  }

  /** Dots around a name that has none at its ends are dropped, and nothing else. */
  lemma {:induction false} DotsAround(before: string, s: string, after: string)
    requires s != "" && s[0] != '.' && s[|s| - 1] != '.'
    requires OnlyDots(before) && OnlyDots(after)
    ensures TrimDots(before + s + after) == s
    decreases |before| + |after|
  {
    var all := before + s + after;
    if before != "" {
      assert all[0] == before[0] && all[1..] == before[1..] + s + after;
      DotsAround(before[1..], s, after);
    } else if after != "" {
      assert all[|all| - 1] == after[|after| - 1] && all[0] == s[0];
      assert all[..|all| - 1] == before + s + after[..|after| - 1];
      DotsAround(before, s, after[..|after| - 1]);
    } else {
      assert all == s;
      TrimDotsNothing(s);
    }
  }

  lemma BehindBars(rest: string, line: string, isIp: IpTest)
    requires line == "||" + rest
    ensures ParseProxyRule(line, isIp) == ParseRuleBody(rest, isIp)
  {
    assert line[..2] == "||" && line[2..] == rest;
  }

  lemma BehindDot(rest: string, line: string, isIp: IpTest)
    requires line == "." + rest
    ensures ParseProxyRule(line, isIp) == ParseRuleBody(rest, isIp)
  {
    assert line[0] == '.' && line[..1] == "." && line[1..] == rest;
    assert |line| >= 2 ==> line[..2][0] == '.' && "||"[0] == '|';
  }

  /** A line of the list that anchors a domain, written in any case, with or without dots around it
      and more behind it, is a rule for it. */
  lemma ListLineMeans(before: string, name: string, after: string, tail: string, isIp: IpTest)
    requires IsUsable(Lower(name), isIp) && '*' !in tail && (tail != "" ==> tail[0] in {'/', '^', '$'})
    requires OnlyDots(before) && OnlyDots(after)
    ensures ParseRule(Gfwlist, "||" + (before + name + after + tail), isIp) == Some(Lower(name))
    ensures ParseRule(Gfwlist, "." + (before + name + after + tail), isIp) == Some(Lower(name))
  {
    var rest := before + name + after + tail;
    RuleBodyMeans(before, name, after, tail, isIp);
    BehindBars(rest, "||" + rest, isIp);
    BehindDot(rest, "." + rest, isIp);
  }

  /** Lines that anchor nothing, and those with a wildcard, are no rules. */
  lemma OtherLinesMeanNothing(line: string, isIp: IpTest)
    ensures (line == "" || line[0] != '.') && (|line| < 2 || line[0] != '|' || line[1] != '|') ==>
              ParseRule(Gfwlist, line, isIp) == None
    ensures '*' in line ==> ParseRule(Gfwlist, line, isIp) == None
  {
    if '*' in line {
      assert StartsWith(line, "||") ==> line == "||" + line[2..];
      assert StartsWith(line, ".") ==> line == "." + line[1..];
    }
    if |line| >= 2 {
      assert line[..2] == [line[0], line[1]];
    }
    if line != "" {
      assert line[..1] == [line[0]];
    }
  }

  lemma {:induction false} TrimAround(before: string, s: string, after: string)
    requires s != "" && NoWhitespace(s)
    requires (forall c <- before :: IsWhitespace(c)) && (forall c <- after :: IsWhitespace(c))
    ensures Trim(before + s + after) == s
    decreases |before| + |after|
  {
    assert s[0] in s && s[|s| - 1] in s;
    var all := before + s + after;
    if before != "" {
      assert before[0] in before && all[0] == before[0];
      assert all[1..] == before[1..] + s + after;
      TrimAround(before[1..], s, after);
    } else if after != "" {
      assert after[|after| - 1] in after && all[|all| - 1] == after[|after| - 1] && all[0] == s[0];
      assert all[..|all| - 1] == before + s + after[..|after| - 1];
      TrimAround(before, s, after[..|after| - 1]);
    } else {
      assert all == s;
      TrimNothing(s);
    }
  }

  /** A line of the custom file is a rule for the domain it holds, whatever space is around that, and
      whatever comment follows. */
  lemma CustomLineMeans(before: string, name: string, after: string, comment: string, isIp: IpTest)
    requires IsUsable(Lower(name), isIp)
    requires (forall c <- before :: IsWhitespace(c)) && (forall c <- after :: IsWhitespace(c))
    requires comment == "" || comment[0] == '#'
    ensures ParseRule(Custom, before + name + after + comment, isIp) == Some(Lower(name))
  {
    UsableIsWritten(name, isIp);
    UpToStop(before + name + after, comment, {'#'});
    TrimAround(before, name, after);
    UsableIsFixed(name, isIp);
  }

  lemma {:induction false} CollectExactly(format: Format, lines: seq<string>, isIp: IpTest, rule: string)
    ensures rule in Collect(format, lines, isIp)
       <==> exists line <- lines :: ParseRule(format, line, isIp) == Some(rule)
  {
    if lines != [] {
      CollectExactly(format, lines[1..], isIp, rule);
      assert forall line :: line in lines <==> line == lines[0] || line in lines[1..];
    }
  }

  // ---- Rules match themselves and their subdomains ----

  /** Trimming never reaches a part that ends without whitespace. */
  lemma {:induction false} TrimKeeps(p: string, tail: string)
    requires tail != "" && !IsWhitespace(tail[0]) && !IsWhitespace(tail[|tail| - 1])
    ensures exists q :: Trim(p + tail) == q + tail
  {
    var s := p + tail;
    if p == "" {
      assert s == tail;
      assert Trim(s) == "" + tail;
    } else if IsWhitespace(p[0]) {
      assert s[1..] == p[1..] + tail;
      TrimKeeps(p[1..], tail);
    } else {
      assert s[|s| - 1] == tail[|tail| - 1];
      assert Trim(s) == p + tail;
    }
  }

  lemma {:induction false} TrimDotsKeeps(p: string, domain: string)
    requires domain != "" && domain[0] != '.' && domain[|domain| - 1] != '.'
    ensures TrimDots(p + domain) == domain
         || exists q :: q != "" && p != "" && q[|q| - 1] == p[|p| - 1] && TrimDots(p + domain) == q + domain
  {
    var s := p + domain;
    if p == "" {
      assert s == domain;
    } else if p[0] == '.' {
      assert s[1..] == p[1..] + domain;
      TrimDotsKeeps(p[1..], domain);
    } else {
      assert s[|s| - 1] == domain[|domain| - 1];
      assert TrimDots(s) == p + domain;
    }
  }

  lemma SubdomainStaysUnder(labels: string, domain: string)
    requires domain != "" && IsNormal(domain)
    ensures Under(Normalize(labels + "." + domain), domain)
  {
    var tail := "." + domain;
    assert domain[|domain| - 1] in domain;
    assert labels + "." + domain == labels + tail;
    TrimKeeps(labels, tail);
    var q :| Trim(labels + tail) == q + tail;
    assert q + tail == (q + ".") + domain;
    TrimDotsKeeps(q + ".", domain);
    if TrimDots((q + ".") + domain) != domain {
      var r: string :| r != "" && r[|r| - 1] == (q + ".")[|q| + 1 - 1] && TrimDots((q + ".") + domain) == r + domain;
      LowerOfJoin(r, domain);
      var n := Lower(r) + domain;
      assert n[|r| - 1] == '.' && n[|r|..] == domain;
      DotBefore(n, |r| - 1, domain);
    }
  }

  /** So a loaded rule matches itself and whatever stands before it and a dot. */
  lemma RuleMatchesItsDomain(format: Format, text: string, isIp: IpTest, domains: set<string>, rule: string,
                             labels: string)
    requires rule in ParseText(format, text, isIp) && rule in domains
    ensures Matches(domains, rule) && Matches(domains, labels + "." + rule)
  {
    CollectExactly(format, Lines(text), isIp, rule);
    var line :| line in Lines(text) && ParseRule(format, line, isIp) == Some(rule);
    RuleIsUsable(format, line, isIp);
    SubdomainStaysUnder(labels, rule);
    MatchesExactly(domains, rule);
    MatchesExactly(domains, labels + "." + rule);
  }
}
