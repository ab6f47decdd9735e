/**
 * The access rules of `securityFilterChain`: an ordered table of (method,
 * path patterns, access) rules, decided by the first rule that matches, with
 * every unmatched request requiring authentication.
 */
module SecurityConfig {
  import opened Wrappers
  import opened Text

  datatype HttpMethod = GET | POST | PUT | PATCH | DELETE | HEAD | OPTIONS

  datatype Access = PermitAll | Authenticated

  /** One `requestMatchers(...)` line: an optional method, its patterns and the access granted. */
  datatype Rule = Rule(verb: Option<HttpMethod>, patterns: seq<string>, access: Access)

  // A pattern ending in `/**` matches its base path and everything below it;
  // any other pattern matches that exact path.
  predicate PatternMatches(pattern: string, path: string)
  {
    if EndsWith(pattern, "/**") then
      var base := pattern[..|pattern| - 3];
      path == base || StartsWith(path, base + "/")
    else path == pattern
  }

  predicate AnyPatternMatches(patterns: seq<string>, path: string)
  {
    patterns != [] && (PatternMatches(patterns[0], path) || AnyPatternMatches(patterns[1..], path))
  }

  predicate RuleMatches(r: Rule, m: HttpMethod, path: string)
  {
    (r.verb.None? || r.verb.value == m) && AnyPatternMatches(r.patterns, path)
  }

  lemma SinglePattern(pattern: string, path: string)
    ensures AnyPatternMatches([pattern], path) <==> PatternMatches(pattern, path)
  {
    assert [pattern][1..] == [];
  }

  /** A path that differs from a pattern's base at some position does not match it. */
  lemma MismatchAt(pattern: string, path: string, k: nat)
    requires k < |path| && k < |pattern| && path[k] != pattern[k]
    requires EndsWith(pattern, "/**") ==> k < |pattern| - 3
    ensures !PatternMatches(pattern, path)
  {
    if EndsWith(pattern, "/**") {
      var base := pattern[..|pattern| - 3];
      assert base[k] == pattern[k] && (base + "/")[k] == base[k];
      if |base| + 1 <= |path| {
        assert path[..|base| + 1][k] == path[k];
      }
    }
  }

  /** The table in its listed order; `anyRequest().authenticated()` is the default of `Decide`. */
  const Rules: seq<Rule> := [
    Rule(Some(POST), ["/api/v1/auth/**"], PermitAll),
    Rule(Some(GET), ["/api/v1/auth/**"], PermitAll),
    Rule(Some(GET), ["/api/v1/debug/**"], PermitAll),
    Rule(None, ["/actuator/**"], PermitAll),
    Rule(Some(GET), ["/api/v1/team/**", "/api/team/**"], PermitAll),
    Rule(Some(GET), ["/api/v1/projects/**", "/api/projects/**"], PermitAll),
    Rule(Some(POST), ["/api/v1/contact"], PermitAll),
    Rule(None, ["/api/v1/profile/**"], Authenticated)
  ]

  /** The first rule that matches the request, if any. */
  function FirstMatch(rules: seq<Rule>, m: HttpMethod, path: string): (r: Option<nat>)
    ensures r.Some? ==> r.value < |rules| && RuleMatches(rules[r.value], m, path)
    ensures r.Some? ==> forall j :: 0 <= j < r.value ==> !RuleMatches(rules[j], m, path)
    ensures r.None? ==> forall j :: 0 <= j < |rules| ==> !RuleMatches(rules[j], m, path)
  {
    if rules == [] then None
    else if RuleMatches(rules[0], m, path) then Some(0)
    else
      var r := FirstMatch(rules[1..], m, path);
      assert forall j :: 1 <= j < |rules| ==> rules[j] == rules[1..][j - 1];
      if r.Some? then Some(r.value + 1) else None
  }

  /** The access decision: that of the first matching rule, or authenticated when none matches. */
  function Decide(rules: seq<Rule>, m: HttpMethod, path: string): Access
  {
    var i := FirstMatch(rules, m, path);
    if i.Some? then rules[i.value].access else Authenticated
  }

  /**
   * In a table whose permit rules all come before its authenticated ones, a
   * request is permitted exactly when some permit rule matches it.
   */
  lemma PermitIffSomePermitRule(rules: seq<Rule>, k: nat, m: HttpMethod, path: string)
    requires k <= |rules|
    requires forall i :: 0 <= i < k ==> rules[i].access == PermitAll
    requires forall i :: k <= i < |rules| ==> rules[i].access == Authenticated
    ensures Decide(rules, m, path) == PermitAll <==> exists i :: 0 <= i < k && RuleMatches(rules[i], m, path)
  {
    var f := FirstMatch(rules, m, path);
    if exists i :: 0 <= i < k && RuleMatches(rules[i], m, path) {
      var i :| 0 <= i < k && RuleMatches(rules[i], m, path);
      assert f.Some? && f.value <= i;
    }
  }

  /** For the configured table: permitted exactly when one of its first seven rules matches. */
  lemma PermittedRequests(m: HttpMethod, path: string)
    ensures Decide(Rules, m, path) == PermitAll <==> exists i :: 0 <= i < 7 && RuleMatches(Rules[i], m, path)
  {
    PermitIffSomePermitRule(Rules, 7, m, path);
  }

  // A path below `prefix` (which ends in `/`) matches the pattern `prefix + "**"`.
  lemma BelowMatches(prefix: string, rest: string)
    requires |prefix| > 0 && prefix[|prefix| - 1] == '/'
    ensures PatternMatches(prefix + "**", prefix + rest)
  {
    var pattern := prefix + "**";
    var base := prefix[..|prefix| - 1];
    assert pattern[|pattern| - 3..] == "/**";
    assert pattern[..|pattern| - 3] == base;
    assert base + "/" == prefix;
    assert (prefix + rest)[..|prefix|] == prefix;
  }

  /** A pattern anywhere in a rule's list makes the list match. */
  lemma {:induction false} AnyPatternAt(patterns: seq<string>, j: nat, path: string)
    requires j < |patterns| && PatternMatches(patterns[j], path)
    ensures AnyPatternMatches(patterns, path)
  {
    if j > 0 {
      AnyPatternAt(patterns[1..], j - 1, path);
    }
  }

  /** A permit rule whose `j`-th pattern is `prefix + "**"` permits every path below `prefix` for its method. */
  lemma PermittedBelow(i: nat, j: nat, m: HttpMethod, prefix: string, rest: string)
    requires i < 7 && j < |Rules[i].patterns| && Rules[i].patterns[j] == prefix + "**"
    requires Rules[i].verb.None? || Rules[i].verb.value == m
    requires |prefix| > 0 && prefix[|prefix| - 1] == '/'
    ensures Decide(Rules, m, prefix + rest) == PermitAll
  {
    BelowMatches(prefix, rest);
    AnyPatternAt(Rules[i].patterns, j, prefix + rest);
    PermittedRequests(m, prefix + rest);
  }

  /** GET and POST below `/api/v1/auth/` are permitted, `current-user` included. */
  lemma AuthRoutesPermitted(m: HttpMethod, rest: string)
    requires m == GET || m == POST
    ensures Decide(Rules, m, "/api/v1/auth/" + rest) == PermitAll
  {
    PermittedBelow(if m == POST then 0 else 1, 0, m, "/api/v1/auth/", rest);
  }

  lemma CurrentUserPermitted()
    ensures Decide(Rules, GET, "/api/v1/auth/current-user") == PermitAll
  {
    var path := "/api/v1/auth/current-user";
    assert path[..13] == "/api/v1/auth/";
    assert path == path[..13] + path[13..];
    AuthRoutesPermitted(GET, path[13..]);
  }

  /** Any method below `/actuator/` is permitted. */
  lemma ActuatorPermitted(m: HttpMethod, rest: string)
    ensures Decide(Rules, m, "/actuator/" + rest) == PermitAll
  {
    PermittedBelow(3, 0, m, "/actuator/", rest);
  }

  /** GET of the debug routes is permitted. */
  lemma DebugGetPermitted(rest: string)
    ensures Decide(Rules, GET, "/api/v1/debug/" + rest) == PermitAll
  {
    PermittedBelow(2, 0, GET, "/api/v1/debug/", rest);
  }

  /** GET of the team routes is permitted under both prefixes. */
  lemma TeamPermitted(rest: string)
    ensures Decide(Rules, GET, "/api/v1/team/" + rest) == PermitAll
    ensures Decide(Rules, GET, "/api/team/" + rest) == PermitAll
  {
    PermittedBelow(4, 0, GET, "/api/v1/team/", rest);
    PermittedBelow(4, 1, GET, "/api/team/", rest);
  }

  /** GET of the project routes is permitted under both prefixes. */
  lemma ProjectsPermitted(rest: string)
    ensures Decide(Rules, GET, "/api/v1/projects/" + rest) == PermitAll
    ensures Decide(Rules, GET, "/api/projects/" + rest) == PermitAll
  {
    PermittedBelow(5, 0, GET, "/api/v1/projects/", rest);
    PermittedBelow(5, 1, GET, "/api/projects/", rest);
  }

  /** Only POST of the exact contact path is permitted. */
  lemma ContactPermitted()
    ensures Decide(Rules, POST, "/api/v1/contact") == PermitAll
  {
    PermittedRequests(POST, "/api/v1/contact");
    assert RuleMatches(Rules[6], POST, "/api/v1/contact");
  }

  /** No single permit rule matches a request other than GET below `/api/v1/debug/`. */
  lemma NonGetDebugMisses(i: nat, m: HttpMethod, rest: string)
    requires i < 7 && m != GET
    ensures !RuleMatches(Rules[i], m, "/api/v1/debug/" + rest)
  {
    var path := "/api/v1/debug/" + rest;
    assert path[2] == 'p' && path[8] == 'd';
    if i == 0 {
      SinglePattern("/api/v1/auth/**", path);
      MismatchAt("/api/v1/auth/**", path, 8);
    } else if i == 3 {
      SinglePattern("/actuator/**", path);
      MismatchAt("/actuator/**", path, 2);
    } else if i == 6 {
      SinglePattern("/api/v1/contact", path);
      MismatchAt("/api/v1/contact", path, 8);
    } else {
      assert Rules[i].verb == Some(GET);
    }
  }

  /** A request that only a GET rule could match is not permitted for POST or any other method. */
  lemma NonGetDebugNeedsAuthentication(m: HttpMethod, rest: string)
    requires m != GET
    ensures Decide(Rules, m, "/api/v1/debug/" + rest) == Authenticated
  {
    PermittedRequests(m, "/api/v1/debug/" + rest);
    forall i | 0 <= i < 7 ensures !RuleMatches(Rules[i], m, "/api/v1/debug/" + rest) {
      NonGetDebugMisses(i, m, rest);
    }
  }

  /** No single permit rule matches POST of `/api/contact`. */
  lemma UnversionedContactMisses(i: nat)
    requires i < 7
    ensures !RuleMatches(Rules[i], POST, "/api/contact")
  {
    var path := "/api/contact";
    assert path[2] == 'p' && path[5] == 'c';
    if i == 0 {
      SinglePattern("/api/v1/auth/**", path);
      MismatchAt("/api/v1/auth/**", path, 5);
    } else if i == 3 {
      SinglePattern("/actuator/**", path);
      MismatchAt("/actuator/**", path, 2);
    } else if i == 6 {
      SinglePattern("/api/v1/contact", path);
      MismatchAt("/api/v1/contact", path, 5);
    } else {
      assert Rules[i].verb == Some(GET);
    }
  }

  /** POST of `/api/contact`, without the version segment, matches no permit rule. */
  lemma UnversionedContactNeedsAuthentication()
    ensures Decide(Rules, POST, "/api/contact") == Authenticated
  {
    PermittedRequests(POST, "/api/contact");
    forall i | 0 <= i < 7 ensures !RuleMatches(Rules[i], POST, "/api/contact") {
      UnversionedContactMisses(i);
    }
  }
}
