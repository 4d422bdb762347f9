/** Package `router`: the request authorization evaluator behind the JWT
    middleware's authorizator. Rules are scanned in configuration order and
    each rule's URL entries in order; an entry is decisive when its path and
    method both match and its access kind either grants access or is
    `DenyAll`; the first decisive entry settles the decision, and when none
    is decisive the request is denied. Glob matching (`doublestar.Match`)
    and custom handlers are parameters. */
module Router {
  import opened Util
  import opened Constant
  import Config

  type Rule = Config.AuthorizedRequest

  /** What the evaluator reads from the Gin context: the matched route
      (`c.FullPath()`) and the HTTP method (`c.Request.Method`). */
  datatype HttpRequest = HttpRequest(path: string, verb: string)

  /** `doublestar.Match(pattern, name)`: whether it matched, and an error
      for a malformed pattern. */
  type Glob = (string, string) -> (bool, Option<Error>)

  /** A `CustomAuthorizedHandler`'s `Authorize(c, authenticationData, authorities)`. */
  type Handler = (HttpRequest, Item, seq<Item>) -> bool

  /** Everything one decision depends on besides the rules. */
  datatype AuthContext = AuthContext(
    req: HttpRequest,
    data: Item,
    authorities: seq<Item>,
    handlers: seq<Handler>,
    glob: Glob)

  const InvalidAccessError: Error :=
    Error("Invalid access type, must be has permission, has role, permit all or deny all")

  // ---------------------------------------------------------------------------
  // strings.Split
  // ---------------------------------------------------------------------------

  /** `strings.Split(s, sep)` for a one-character separator: the pieces
      between consecutive separators, so one more piece than separators. */
  function Split(s: string, sep: char): (parts: seq<string>)
    ensures |parts| >= 1
    ensures forall k :: 0 <= k < |parts| ==> sep !in parts[k]
  {
    if |s| == 0 then [""]
    else
      var rest := Split(s[1..], sep);
      if s[0] == sep then [""] + rest
      else [[s[0]] + rest[0]] + rest[1..]
  }

  /** `strings.Join(parts, sep)`. */
  function Join(parts: seq<string>, sep: char): string
    requires |parts| >= 1
  {
    if |parts| == 1 then parts[0] else parts[0] + [sep] + Join(parts[1..], sep)
  }

  /** Splitting and joining again gives the entry back. */
  lemma {:induction false} SplitJoin(s: string, sep: char)
    ensures Join(Split(s, sep), sep) == s
  {
    if |s| > 0 {
      SplitJoin(s[1..], sep);
      var rest := Split(s[1..], sep);
      if s[0] == sep {
        assert Split(s, sep)[1..] == rest;
      } else {
        var parts := Split(s, sep);
        assert parts[1..] == rest[1..];
        if |rest| > 1 {
          assert rest[1..][1..] == rest[2..];
        }
      }
    }
  }

  /** An entry without the separator is a single piece. */
  lemma {:induction false} SplitWithoutSeparator(s: string, sep: char)
    requires sep !in s
    ensures Split(s, sep) == [s]
  {
    if |s| > 0 {
      assert sep !in s[1..] by {
        forall k | 0 <= k < |s| - 1 ensures s[1..][k] != sep { assert s[1..][k] == s[k + 1]; }
      }
      SplitWithoutSeparator(s[1..], sep);
      assert [s[0]] + s[1..] == s;
    }
  }

  /** An entry with the separator has at least a path part and a method part. */
  lemma {:induction false} SplitWithSeparator(s: string, sep: char)
    requires sep in s
    ensures |Split(s, sep)| >= 2
  {
    if s[0] != sep {
      SplitWithSeparator(s[1..], sep);
    }
  }

  // ---------------------------------------------------------------------------
  // The role, permission and custom checks
  // ---------------------------------------------------------------------------

  /** Whether some name is found among the authorities; the shared loop of
      `authorizeHasPermission` and `authorizeHasRole`, each name looked up
      with `FindStringInGeneric`. */
  function AnyFound(names: seq<string>, authorities: seq<Item>): (r: bool)
    ensures r <==> exists k :: 0 <= k < |names| && Str(names[k]) in authorities
  {
    if |names| == 0 then false
    else if IndexOf(authorities, names[0]) >= 0 then true
    else
      assert names == [names[0]] + names[1..];
      AnyFound(names[1..], authorities)
  }

  /** `authorizeHasPermission`. */
  function AuthorizeHasPermission(rule: Rule, authorities: seq<Item>): (r: bool)
    ensures r <==> exists k :: 0 <= k < |rule.permissions| && Str(rule.permissions[k]) in authorities
  {
    AnyFound(rule.permissions, authorities)
  }

  /** `authorizeHasRole`. */
  function AuthorizeHasRole(rule: Rule, authorities: seq<Item>): (r: bool)
    ensures r <==> exists k :: 0 <= k < |rule.roles| && Str(rule.roles[k]) in authorities
  {
    AnyFound(rule.roles, authorities)
  }

  /** The custom branch: handlers are asked in order and the first that
      says yes grants; none, or none saying yes, grants nothing. */
  function AnyHandlerAllows(handlers: seq<Handler>, req: HttpRequest, data: Item, authorities: seq<Item>): (r: bool)
    ensures r <==> exists k :: 0 <= k < |handlers| && handlers[k](req, data, authorities)
  {
    if |handlers| == 0 then false
    else if handlers[0](req, data, authorities) then true
    else
      assert handlers == [handlers[0]] + handlers[1..];
      AnyHandlerAllows(handlers[1..], req, data, authorities)
  }

  // ---------------------------------------------------------------------------
  // One URL entry
  // ---------------------------------------------------------------------------

  /** `authorizePerUrl`: the pair (auth, matchUrlOrMet), or a panic from
      `util.Must` on a glob error or from an unknown access kind. */
  function AuthorizePerUrl(url: string, rule: Rule, a: AuthContext): (o: Outcome<(bool, bool)>)
    ensures o.Return? && o.value.0 ==> o.value.1
    ensures o.Return? && o.value.1 ==> FullMatch(url, a)
    ensures o.Panic? ==>
      !GlobsWellFormed(url, a) || (FullMatch(url, a) && ParseAccess(rule.access).Unrecognised?)
    ensures a.glob(Split(url, ':')[0], a.req.path) == (false, None) ==> o == Return((false, false))
  {
    var arrUrl := Split(url, ':');
    var pathMatch := a.glob(arrUrl[0], a.req.path);
    var pathMust := Must(pathMatch.1);
    if pathMust.Panic? then Panic(pathMust.error)
    else if !pathMatch.0 then Return((false, false))
    else if |arrUrl| <= 1 then Return((false, false))
    else
      var methodMatch := a.glob(arrUrl[1], a.req.verb);
      var methodMust := Must(methodMatch.1);
      if methodMust.Panic? then Panic(methodMust.error)
      else if !methodMatch.0 then Return((false, false))
      else
        match ParseAccess(rule.access)
        case HasPermission =>
          if AuthorizeHasPermission(rule, a.authorities) then Return((true, true)) else Return((false, false))
        case HasRole =>
          if AuthorizeHasRole(rule, a.authorities) then Return((true, true)) else Return((false, false))
        case PermitAll => Return((true, true))
        case DenyAll => Return((false, true))
        case Custom =>
          if AnyHandlerAllows(a.handlers, a.req, a.data, a.authorities) then Return((true, true))
          else Return((false, false))
        case Unrecognised(_) => Panic(InvalidAccessError)
  }

  /** Path and method globs both match without error. */
  predicate FullMatch(url: string, a: AuthContext) {
    var arrUrl := Split(url, ':');
    |arrUrl| >= 2 &&
    a.glob(arrUrl[0], a.req.path) == (true, None) &&
    a.glob(arrUrl[1], a.req.verb) == (true, None)
  }

  /** Neither glob reports an error. */
  predicate GlobsWellFormed(url: string, a: AuthContext) {
    var arrUrl := Split(url, ':');
    a.glob(arrUrl[0], a.req.path).1.None? &&
    (|arrUrl| >= 2 ==> a.glob(arrUrl[1], a.req.verb).1.None?)
  }

  /** An entry's outcome ends the scan when it panics or when it matched. */
  predicate Decisive(o: Outcome<(bool, bool)>) {
    o.Panic? || o.value.1
  }

  /** The decision a decisive outcome yields. */
  function Settle(o: Outcome<(bool, bool)>): Outcome<bool> {
    match o
    case Panic(e) => Panic(e)
    case Return(v) => Return(v.0)
  }

  /** An entry is decisive only on a full match whose access kind grants
      access or is `DenyAll`, or on a panic; a decisive non-panicking entry
      denies only for `DenyAll`. */
  lemma DecisiveOnlyWhenGrantedOrDenyAll(url: string, rule: Rule, a: AuthContext)
    ensures var o := AuthorizePerUrl(url, rule, a);
      o.Return? && Decisive(o) ==>
        FullMatch(url, a) && (o.value.0 || ParseAccess(rule.access) == DenyAll)
    ensures var o := AuthorizePerUrl(url, rule, a);
      o.Return? && !Decisive(o) ==> !o.value.0
  {
  }

  /** A path-glob error always panics through `util.Must`, and so does a
      method-glob error once the path has matched; when the path does not
      match, the method glob is never consulted and the entry is skipped. */
  lemma GlobErrorsPanic(url: string, rule: Rule, a: AuthContext)
    ensures var p := a.glob(Split(url, ':')[0], a.req.path);
      p.1.Some? ==> AuthorizePerUrl(url, rule, a) == Panic(p.1.value)
    ensures var s := Split(url, ':');
      |s| >= 2 && a.glob(s[0], a.req.path) == (true, None) && a.glob(s[1], a.req.verb).1.Some? ==>
        AuthorizePerUrl(url, rule, a) == Panic(a.glob(s[1], a.req.verb).1.value)
    ensures a.glob(Split(url, ':')[0], a.req.path) == (false, None) ==>
      AuthorizePerUrl(url, rule, a) == Return((false, false))
  {
  }

  /** An entry without `:` never matches, even when its path glob does: it
      is never decisive unless its glob reports an error. */
  lemma NoMethodPartNeverMatches(url: string, rule: Rule, a: AuthContext)
    requires ':' !in url
    ensures var m := a.glob(url, a.req.path);
      AuthorizePerUrl(url, rule, a) == if m.1.Some? then Panic(m.1.value) else Return((false, false))
  {
    SplitWithoutSeparator(url, ':');
  }

  /** On a full match, `PermitAll` allows and `DenyAll` denies decisively,
      whatever the authorities. */
  lemma PermitAllAndDenyAll(url: string, rule: Rule, a: AuthContext)
    requires FullMatch(url, a)
    ensures rule.access == PermitAll.Value() ==> AuthorizePerUrl(url, rule, a) == Return((true, true))
    ensures rule.access == DenyAll.Value() ==> AuthorizePerUrl(url, rule, a) == Return((false, true))
  {
  }

  /** On a full match, `HasPermission` (resp. `HasRole`) is decisive and
      allows iff one of the rule's permissions (resp. roles) is among the
      authorities as a string; otherwise the scan goes on. */
  lemma PermissionAndRoleChecks(url: string, rule: Rule, a: AuthContext)
    requires FullMatch(url, a)
    ensures rule.access == HasPermission.Value() ==>
      var g := exists k :: 0 <= k < |rule.permissions| && Str(rule.permissions[k]) in a.authorities;
      AuthorizePerUrl(url, rule, a) == Return((g, g))
    ensures rule.access == HasRole.Value() ==>
      var g := exists k :: 0 <= k < |rule.roles| && Str(rule.roles[k]) in a.authorities;
      AuthorizePerUrl(url, rule, a) == Return((g, g))
  {
  }

  /** On a full match, `Custom` is decisive and allows iff some handler
      says yes; with no handlers the scan goes on. */
  lemma CustomCheck(url: string, rule: Rule, a: AuthContext)
    requires FullMatch(url, a) && rule.access == Custom.Value()
    ensures var g := exists k :: 0 <= k < |a.handlers| && a.handlers[k](a.req, a.data, a.authorities);
      AuthorizePerUrl(url, rule, a) == Return((g, g))
    ensures a.handlers == [] ==> AuthorizePerUrl(url, rule, a) == Return((false, false))
  {
  }

  /** An access kind outside the five panics exactly when path and method
      both match (given globs that report no error). */
  lemma UnknownAccessPanicsOnlyOnFullMatch(url: string, rule: Rule, a: AuthContext)
    requires rule.access !in KnownAccessValues && GlobsWellFormed(url, a)
    ensures AuthorizePerUrl(url, rule, a).Panic? <==> FullMatch(url, a)
    ensures AuthorizePerUrl(url, rule, a).Panic? ==> AuthorizePerUrl(url, rule, a).error == InvalidAccessError
  {
  }

  // ---------------------------------------------------------------------------
  // The scan over rules and entries
  // ---------------------------------------------------------------------------

  /** The inner loop over one rule's entries: `Some(auth)` from the first
      decisive entry, `None` when none is. */
  function ScanUrls(urls: seq<string>, rule: Rule, a: AuthContext): Outcome<Option<bool>> {
    if |urls| == 0 then Return(None)
    else
      var o := AuthorizePerUrl(urls[0], rule, a);
      if o.Panic? then Panic(o.error)
      else if o.value.1 then Return(Some(o.value.0))
      else ScanUrls(urls[1..], rule, a)
  }

  /** `HandleAuthorizationWithAuthorities` as a recursive function: the
      outer loop over rules, deny when no entry is decisive. */
  function Decide(rules: seq<Rule>, a: AuthContext): Outcome<bool> {
    if |rules| == 0 then Return(false)
    else
      match ScanUrls(rules[0].urls, rules[0], a)
      case Panic(e) => Panic(e)
      case Return(Some(auth)) => Return(auth)
      case Return(None) => Decide(rules[1..], a)
  }

  /** A rule's scan decides `auth` only when some entry returned
      `(auth, true)`, panics only when some entry panicked, and finds
      nothing only when every entry returned without matching. */
  lemma {:induction false} ScanUrlsWitnesses(urls: seq<string>, rule: Rule, a: AuthContext)
    ensures var r := ScanUrls(urls, rule, a);
      r.Return? && r.value.Some? ==>
        exists k :: 0 <= k < |urls| && AuthorizePerUrl(urls[k], rule, a) == Return((r.value.value, true))
    ensures ScanUrls(urls, rule, a).Panic? ==>
      exists k :: 0 <= k < |urls| && AuthorizePerUrl(urls[k], rule, a).Panic?
    ensures ScanUrls(urls, rule, a) == Return(None) ==>
      forall k :: 0 <= k < |urls| ==>
        AuthorizePerUrl(urls[k], rule, a).Return? && !AuthorizePerUrl(urls[k], rule, a).value.1
  {
    if |urls| > 0 {
      var o := AuthorizePerUrl(urls[0], rule, a);
      if o.Return? && !o.value.1 {
        ScanUrlsWitnesses(urls[1..], rule, a);
        var r := ScanUrls(urls[1..], rule, a);
        if r.Return? && r.value.Some? {
          var k :| 0 <= k < |urls[1..]| && AuthorizePerUrl(urls[1..][k], rule, a) == Return((r.value.value, true));
          assert urls[1..][k] == urls[k + 1];
        } else if r.Panic? {
          var k :| 0 <= k < |urls[1..]| && AuthorizePerUrl(urls[1..][k], rule, a).Panic?;
          assert urls[1..][k] == urls[k + 1];
        } else {
          forall k | 0 <= k < |urls|
            ensures AuthorizePerUrl(urls[k], rule, a).Return? && !AuthorizePerUrl(urls[k], rule, a).value.1
          {
            if k > 0 {
              assert urls[k] == urls[1..][k - 1];
            }
          }
        }
      }
    }
  }

  /** The request is allowed only when some entry of some rule returned
      `(true, true)`, and the scan panics only when some entry panicked. */
  lemma {:induction false} DecideAllowsOnlyOnGrant(rules: seq<Rule>, a: AuthContext)
    ensures Decide(rules, a) == Return(true) ==>
      exists i, k :: 0 <= i < |rules| && 0 <= k < |rules[i].urls| &&
                     AuthorizePerUrl(rules[i].urls[k], rules[i], a) == Return((true, true))
    ensures Decide(rules, a).Panic? ==>
      exists i, k :: 0 <= i < |rules| && 0 <= k < |rules[i].urls| &&
                     AuthorizePerUrl(rules[i].urls[k], rules[i], a).Panic?
  {
    if |rules| > 0 {
      ScanUrlsWitnesses(rules[0].urls, rules[0], a);
      if ScanUrls(rules[0].urls, rules[0], a) == Return(None) {
        DecideAllowsOnlyOnGrant(rules[1..], a);
        if Decide(rules, a) == Return(true) {
          var i, k :| 0 <= i < |rules[1..]| && 0 <= k < |rules[1..][i].urls| &&
                      AuthorizePerUrl(rules[1..][i].urls[k], rules[1..][i], a) == Return((true, true));
          assert rules[1..][i] == rules[i + 1];
        }
        if Decide(rules, a).Panic? {
          var i, k :| 0 <= i < |rules[1..]| && 0 <= k < |rules[1..][i].urls| &&
                      AuthorizePerUrl(rules[1..][i].urls[k], rules[1..][i], a).Panic?;
          assert rules[1..][i] == rules[i + 1];
        }
      }
    }
  }

  /** `HandleAuthorizationWithAuthorities`: nested loops with early returns. */
  method HandleAuthorizationWithAuthorities(rules: seq<Rule>, a: AuthContext) returns (r: Outcome<bool>)
    ensures r == Decide(rules, a)
  {
    if |rules| > 0 {
      var i := 0;
      while i < |rules|
        invariant 0 <= i <= |rules|
        invariant Decide(rules, a) == Decide(rules[i..], a)
      {
        var rule := rules[i];
        DecideStep(rules, i, a);
        if |rule.urls| > 0 {
          var j := 0;
          while j < |rule.urls|
            invariant 0 <= j <= |rule.urls|
            invariant ScanUrls(rule.urls, rule, a) == ScanUrls(rule.urls[j..], rule, a)
          {
            ScanStep(rule.urls, j, rule, a);
            var o := AuthorizePerUrl(rule.urls[j], rule, a);
            if o.Panic? {
              return Panic(o.error);
            }
            var (auth, matchUrlOrMet) := o.value;
            if !matchUrlOrMet {
              j := j + 1;
              continue;
            }
            return Return(auth);
          }
        }
        i := i + 1;
      }
    }
    return Return(false);
  }

  /** One step of the outer loop: the rest of the scan from rule `i`. */
  lemma DecideStep(rules: seq<Rule>, i: nat, a: AuthContext)
    requires i < |rules|
    ensures Decide(rules[i..], a) ==
      match ScanUrls(rules[i].urls, rules[i], a)
      case Panic(e) => Panic(e)
      case Return(Some(auth)) => Return(auth)
      case Return(None) => Decide(rules[i + 1..], a)
  {
    assert rules[i..][0] == rules[i] && rules[i..][1..] == rules[i + 1..];
  }

  /** One step of the inner loop: the rest of the scan from entry `j`. */
  lemma ScanStep(urls: seq<string>, j: nat, rule: Rule, a: AuthContext)
    requires j < |urls|
    ensures ScanUrls(urls[j..], rule, a) ==
      var o := AuthorizePerUrl(urls[j], rule, a);
      if o.Panic? then Panic(o.error)
      else if o.value.1 then Return(Some(o.value.0))
      else ScanUrls(urls[j + 1..], rule, a)
  {
    assert urls[j..][0] == urls[j] && urls[j..][1..] == urls[j + 1..];
  }

  // ---------------------------------------------------------------------------
  // The same decision over the flat list of (entry, rule) pairs
  // ---------------------------------------------------------------------------

  /** Every (URL entry, rule) pair in scan order. */
  function Entries(rules: seq<Rule>): (es: seq<(string, Rule)>)
  {
    if |rules| == 0 then []
    else Tagged(rules[0].urls, rules[0]) + Entries(rules[1..])
  }

  function Tagged(urls: seq<string>, rule: Rule): (es: seq<(string, Rule)>)
    ensures |es| == |urls|
    ensures forall k :: 0 <= k < |urls| ==> es[k] == (urls[k], rule)
  {
    seq(|urls|, k requires 0 <= k < |urls| => (urls[k], rule))
  }

  function Eval(e: (string, Rule), a: AuthContext): Outcome<(bool, bool)> {
    AuthorizePerUrl(e.0, e.1, a)
  }

  /** The reference scan: the first decisive pair's outcome, `None` when
      there is none. */
  function FirstDecisive(es: seq<(string, Rule)>, a: AuthContext): Outcome<Option<bool>> {
    if |es| == 0 then Return(None)
    else
      var o := Eval(es[0], a);
      if o.Panic? then Panic(o.error)
      else if o.value.1 then Return(Some(o.value.0))
      else FirstDecisive(es[1..], a)
  }

  function Finish(o: Outcome<Option<bool>>): Outcome<bool> {
    match o
    case Panic(e) => Panic(e)
    case Return(None) => Return(false)
    case Return(Some(b)) => Return(b)
  }

  lemma {:induction false} FirstDecisiveAppend(e1: seq<(string, Rule)>, e2: seq<(string, Rule)>, a: AuthContext)
    ensures FirstDecisive(e1 + e2, a) ==
      if FirstDecisive(e1, a) == Return(None) then FirstDecisive(e2, a) else FirstDecisive(e1, a)
  {
    if |e1| > 0 {
      assert (e1 + e2)[0] == e1[0];
      assert (e1 + e2)[1..] == e1[1..] + e2;
      FirstDecisiveAppend(e1[1..], e2, a);
    } else {
      assert e1 + e2 == e2;
    }
  }

  lemma {:induction false} ScanUrlsIsFirstDecisive(urls: seq<string>, rule: Rule, a: AuthContext)
    ensures ScanUrls(urls, rule, a) == FirstDecisive(Tagged(urls, rule), a)
  {
    if |urls| > 0 {
      assert Tagged(urls, rule)[1..] == Tagged(urls[1..], rule);
      ScanUrlsIsFirstDecisive(urls[1..], rule, a);
    }
  }

  /** The nested scan decides exactly as the flat scan over all pairs. */
  lemma {:induction false} DecideIsFlatScan(rules: seq<Rule>, a: AuthContext)
    ensures Decide(rules, a) == Finish(FirstDecisive(Entries(rules), a))
  {
    if |rules| > 0 {
      ScanUrlsIsFirstDecisive(rules[0].urls, rules[0], a);
      FirstDecisiveAppend(Tagged(rules[0].urls, rules[0]), Entries(rules[1..]), a);
      DecideIsFlatScan(rules[1..], a);
    }
  }

  lemma {:induction false} FirstDecisiveNone(es: seq<(string, Rule)>, a: AuthContext)
    requires forall k :: 0 <= k < |es| ==> !Decisive(Eval(es[k], a))
    ensures FirstDecisive(es, a) == Return(None)
  {
    if |es| > 0 {
      FirstDecisiveNone(es[1..], a);
    }
  }

  lemma {:induction false} FirstDecisiveAt(es: seq<(string, Rule)>, k: nat, a: AuthContext)
    requires k < |es| && Decisive(Eval(es[k], a))
    requires forall j :: 0 <= j < k ==> !Decisive(Eval(es[j], a))
    ensures Finish(FirstDecisive(es, a)) == Settle(Eval(es[k], a))
  {
    if k > 0 {
      FirstDecisiveAt(es[1..], k - 1, a);
    }
  }

  /** When no (entry, rule) pair is decisive, including an empty rule list
      and rules without entries, the request is denied. */
  lemma NoDecisiveEntryDenies(rules: seq<Rule>, a: AuthContext)
    requires forall k :: 0 <= k < |Entries(rules)| ==> !Decisive(Eval(Entries(rules)[k], a))
    ensures Decide(rules, a) == Return(false)
  {
    DecideIsFlatScan(rules, a);
    FirstDecisiveNone(Entries(rules), a);
  }

  /** The decision is the outcome of the first decisive (entry, rule) pair in
      configuration order; no later pair is consulted. */
  lemma FirstDecisiveEntryDecides(rules: seq<Rule>, k: nat, a: AuthContext)
    requires k < |Entries(rules)| && Decisive(Eval(Entries(rules)[k], a))
    requires forall j :: 0 <= j < k ==> !Decisive(Eval(Entries(rules)[j], a))
    ensures Decide(rules, a) == Settle(Eval(Entries(rules)[k], a))
  {
    DecideIsFlatScan(rules, a);
    FirstDecisiveAt(Entries(rules), k, a);
  }

  lemma {:induction false} EntriesAppend(r1: seq<Rule>, r2: seq<Rule>)
    ensures Entries(r1 + r2) == Entries(r1) + Entries(r2)
  {
    if |r1| > 0 {
      assert (r1 + r2)[0] == r1[0];
      assert (r1 + r2)[1..] == r1[1..] + r2;
      EntriesAppend(r1[1..], r2);
    } else {
      assert r1 + r2 == r2;
    }
  }

  /** Rules appended after a decisive entry never change the decision. */
  lemma LaterRulesNotConsulted(rules: seq<Rule>, more: seq<Rule>, a: AuthContext)
    requires exists k :: 0 <= k < |Entries(rules)| && Decisive(Eval(Entries(rules)[k], a))
    ensures Decide(rules + more, a) == Decide(rules, a)
  {
    DecideIsFlatScan(rules, a);
    DecideIsFlatScan(rules + more, a);
    EntriesAppend(rules, more);
    var es := Entries(rules);
    var k :| 0 <= k < |es| && Decisive(Eval(es[k], a));
    FirstDecisiveNotNone(es, k, a);
    FirstDecisiveAppend(es, Entries(more), a);
  }

  lemma {:induction false} FirstDecisiveNotNone(es: seq<(string, Rule)>, k: nat, a: AuthContext)
    requires k < |es| && Decisive(Eval(es[k], a))
    ensures FirstDecisive(es, a) != Return(None)
  {
    if k > 0 && !Decisive(Eval(es[0], a)) {
      FirstDecisiveNotNone(es[1..], k - 1, a);
    }
  }

  /** A `DenyAll` rule listed before a `PermitAll` rule for the same entry
      `/x:GET` denies that request. */
  lemma DenyAllBeforePermitAll(a: AuthContext)
    requires a.req == HttpRequest("/x", "GET")
    requires a.glob("/x", "/x") == (true, None) && a.glob("GET", "GET") == (true, None)
    ensures Decide([Config.AuthorizedRequest(["/x:GET"], "DenyAll", [], []),
                    Config.AuthorizedRequest(["/x:GET"], "PermitAll", [], [])], a) == Return(false)
  {
    SplitExampleEntry();
  }

  /** The entry `/x:GET` has path part `/x` and method part `GET`. */
  lemma SplitExampleEntry()
    ensures Split("/x:GET", ':') == ["/x", "GET"]
  {
    SplitWithoutSeparator("GET", ':');
    assert ":GET"[1..] == "GET";
    assert Split(":GET", ':') == ["", "GET"];
    assert "x:GET"[1..] == ":GET";
    assert ['x'] + "" == "x";
    assert Split("x:GET", ':') == ["x", "GET"];
    assert "/x:GET"[1..] == "x:GET";
    assert ['/'] + "x" == "/x";
  }

  // ---------------------------------------------------------------------------
  // The JWT authorizator wiring and the Router object
  // ---------------------------------------------------------------------------

  const UserIdClaim: string := "user_id"
  const AuthoritiesClaim: string := "authorities"

  const ClaimTypeError: Error := Error("interface conversion: authorities claim is not []interface{}")

  /** `IdentityHandler` of `DefAuthorizedMw`: the `user_id` claim, nil when absent. */
  function IdentityHandler(claims: map<string, Item>): (id: Item)
    ensures UserIdClaim in claims ==> id == claims[UserIdClaim]
    ensures UserIdClaim !in claims ==> id == Nil
  {
    if UserIdClaim in claims then claims[UserIdClaim] else Nil
  }

  /** `Authorizator` of `DefAuthorizedMw`: asserts that the `authorities`
      claim is a list (a panic otherwise) and runs the evaluator with the
      handler slice the middleware was built with. */
  function Authorizator(rules: seq<Rule>, handlers: seq<Handler>, data: Item, req: HttpRequest,
                        claims: map<string, Item>, glob: Glob): (r: Outcome<bool>)
    ensures (AuthoritiesClaim !in claims || !claims[AuthoritiesClaim].List?) ==> r == Panic(ClaimTypeError)
    ensures AuthoritiesClaim in claims && claims[AuthoritiesClaim].List? ==>
      r == Decide(rules, AuthContext(req, data, claims[AuthoritiesClaim].items, handlers, glob))
  {
    if AuthoritiesClaim in claims && claims[AuthoritiesClaim].List? then
      Decide(rules, AuthContext(req, data, claims[AuthoritiesClaim].items, handlers, glob))
    else Panic(ClaimTypeError)
  }

  /** The router. `customAuthorizedHandlers` is the field the registration
      method appends to; `authorizerHandlers` is the separate slice the
      authorizator closure captured when the router was built, which
      nothing ever appends to, and `authorizerRules` the rules it captured. */
  class Router {
    var customAuthorizedHandlers: seq<Handler>
    const authorizerHandlers: seq<Handler> := []
    const authorizerRules: seq<Rule>

    /** `NewRouter` without a caller-supplied authorizator: both handler
        slices start empty and are distinct. */
    constructor (cfg: Config.Config)
      ensures customAuthorizedHandlers == []
      ensures authorizerRules == cfg.security.authorizedRequests
    {
      authorizerRules := cfg.security.authorizedRequests;
      customAuthorizedHandlers := [];
    }

    /** `RegisterCustomAuthorizedHandler`: appends to the end of the field. */
    method RegisterCustomAuthorizedHandler(h: Handler)
      modifies this
      ensures customAuthorizedHandlers == old(customAuthorizedHandlers) + [h]
      ensures |customAuthorizedHandlers| == |old(customAuthorizedHandlers)| + 1
      ensures customAuthorizedHandlers[..|old(customAuthorizedHandlers)|] == old(customAuthorizedHandlers)
    {
      customAuthorizedHandlers := customAuthorizedHandlers + [h];
    }

    /** The authorizator installed in the JWT middleware, as wired: it
        decides as with no custom handlers at all, whatever is registered. */
    function Authorize(data: Item, req: HttpRequest, claims: map<string, Item>, glob: Glob): (r: Outcome<bool>)
      ensures r == Authorizator(authorizerRules, [], data, req, claims, glob)
    {
      Authorizator(authorizerRules, authorizerHandlers, data, req, claims, glob)
    }

    /** The authorizator wired to the registered handlers, as evidently intended. */
    function AuthorizeWithRegistered(data: Item, req: HttpRequest, claims: map<string, Item>, glob: Glob): Outcome<bool>
      reads this
    {
      Authorizator(authorizerRules, customAuthorizedHandlers, data, req, claims, glob)
    }
  }

  /** A router built from `cfg` authorizes every request the same before and
      after a handler is registered, exactly as with no handlers at all. */
  method RegisterThenAuthorize(cfg: Config.Config, h: Handler, data: Item, req: HttpRequest,
                               claims: map<string, Item>, glob: Glob)
    returns (before: Outcome<bool>, after: Outcome<bool>)
    ensures before == after
    ensures after == Authorizator(cfg.security.authorizedRequests, [], data, req, claims, glob)
  {
    var r := new Router(cfg);
    before := r.Authorize(data, req, claims, glob);
    r.RegisterCustomAuthorizedHandler(h);
    assert r.customAuthorizedHandlers == [h];
    after := r.Authorize(data, req, claims, glob);
  }

  /** One `Custom` rule for `/x:GET`, a registered handler that always says
      yes and a request `GET /x`: the router as wired denies it, while the
      authorizator wired to the registered handlers allows it. */
  method RegisteredHandlerOnCustomRule(glob: Glob, data: Item, claims: map<string, Item>)
    returns (asWired: Outcome<bool>, intended: Outcome<bool>)
    requires glob("/x", "/x") == (true, None) && glob("GET", "GET") == (true, None)
    requires AuthoritiesClaim in claims && claims[AuthoritiesClaim].List?
    ensures asWired == Return(false)
    ensures intended == Return(true)
  {
    var rule := Config.AuthorizedRequest(["/x:GET"], Custom.Value(), [], []);
    var cfg := Config.EnvOnly(Constant.DefaultEnv).(security := Config.Security([rule]));
    var r := new Router(cfg);
    var yes: Handler := (req: HttpRequest, d: Item, auths: seq<Item>) => true;
    r.RegisterCustomAuthorizedHandler(yes);
    var req := HttpRequest("/x", "GET");
    var authorities := claims[AuthoritiesClaim].items;
    asWired := r.Authorize(data, req, claims, glob);
    SingleCustomRule(rule, AuthContext(req, data, authorities, [], glob));
    intended := r.AuthorizeWithRegistered(data, req, claims, glob);
    assert r.customAuthorizedHandlers == [yes];
    SingleCustomRule(rule, AuthContext(req, data, authorities, [yes], glob));
  }

  /** With the single rule `Custom` for `/x:GET`, the request `GET /x` is
      allowed exactly when some handler says yes. */
  lemma SingleCustomRule(rule: Rule, a: AuthContext)
    requires rule == Config.AuthorizedRequest(["/x:GET"], Custom.Value(), [], [])
    requires a.req == HttpRequest("/x", "GET")
    requires a.glob("/x", "/x") == (true, None) && a.glob("GET", "GET") == (true, None)
    ensures Decide([rule], a) == Return(AnyHandlerAllows(a.handlers, a.req, a.data, a.authorities))
  {
    SplitExampleEntry();
    var g := AnyHandlerAllows(a.handlers, a.req, a.data, a.authorities);
    assert AuthorizePerUrl("/x:GET", rule, a) == Return((g, g));
    assert rule.urls[1..] == [];
    assert ScanUrls(rule.urls, rule, a) == if g then Return(Some(true)) else Return(None);
    assert [rule][1..] == [];
  }
}
