/** The authorization policy translator (`authz/rbac_translator.go`) and the RBAC engines that evaluate what it
    produces (`internal/xds/rbac`, `internal/xds/matcher`). */
module Rbac {

  import opened Wrappers

  // ---------------------------------------------------------------- the policy language

  datatype Header = Header(key: string, values: seq<string>)

  datatype Rule = Rule(name: string, principals: seq<string>, paths: seq<string>, headers: seq<Header>)

  datatype Policy = Policy(name: string, denyRules: seq<Rule>, allowRules: seq<Rule>)

  /** The client certificate: URI and DNS names, and the subject. */
  datatype Certificate = Certificate(uris: seq<string>, dnsNames: seq<string>, subject: string)

  type Metadata = map<string, seq<string>>

  /** An incoming RPC. */
  datatype Request = Request(fullMethod: string, metadata: Metadata, authType: string, certs: seq<Certificate>)

  function LowerChar(c: char): char {
    if 'A' <= c <= 'Z' then (c as int + 32) as char else c
  }

  function ToLower(s: string): (r: string)
    ensures |r| == |s| && forall i :: 0 <= i < |s| ==> r[i] == LowerChar(s[i])
  {
    if s == "" then "" else [LowerChar(s[0])] + ToLower(s[1..])
  }

  /** One letter in two cases, or the same character. */
  predicate SameLetter(c: char, d: char) {
    c == d || ('A' <= c <= 'Z' && d as int == c as int + 32) || ('A' <= d <= 'Z' && c as int == d as int + 32)
  }

  /** Lower case forgets the case of letters, and nothing else. */
  lemma LowerMeans(s: string, t: string)
    ensures ToLower(s) == ToLower(t) <==> |s| == |t| && forall i :: 0 <= i < |s| ==> SameLetter(s[i], t[i])
    ensures forall i :: 0 <= i < |s| ==> !('A' <= ToLower(s)[i] <= 'Z') && SameLetter(ToLower(s)[i], s[i])
  {
    hide ToLower, LowerChar, SameLetter;
    forall i | 0 <= i < |s|
      ensures !('A' <= ToLower(s)[i] <= 'Z') && SameLetter(ToLower(s)[i], s[i])
    {
      LowerLetters(s[i], s[i]);
    }
    if |s| == |t| {
      forall i | 0 <= i < |s|
        ensures ToLower(s)[i] == ToLower(t)[i] <==> SameLetter(s[i], t[i])
      {
        LowerLetters(s[i], t[i]);
      }
      if ToLower(s) != ToLower(t) {
        var i :| 0 <= i < |s| && ToLower(s)[i] != ToLower(t)[i];
      }
    }
  }

  lemma LowerLetters(c: char, d: char)
    ensures LowerChar(c) == LowerChar(d) <==> SameLetter(c, d)
    ensures !('A' <= LowerChar(c) <= 'Z') && SameLetter(LowerChar(c), c)
  {
  }

  lemma LowerTwice(s: string)
    ensures ToLower(ToLower(s)) == ToLower(s)
  {
  }

  function Cat(s: string, t: string): string {
    s + t
  }

  ghost predicate Begins(s: string, p: string) {
    exists t :: Cat(p, t) == s
  }

  ghost predicate Ends(s: string, p: string) {
    exists t :: Cat(t, p) == s
  }

  /** What a pattern stands for: `*` any text, `p*` what begins with p, `*p` what ends with p, else itself. */
  ghost predicate Fits(pattern: string, s: string) {
    if pattern == "*" then s != "" && '\n' !in s
    else if |pattern| > 0 && pattern[|pattern| - 1] == '*' then Begins(s, pattern[..|pattern| - 1])
    else if |pattern| > 0 && pattern[0] == '*' then Ends(s, pattern[1..])
    else s == pattern
  }

  /** The names of an authenticated peer, from the first source that has any. */
  function Names(q: Request): seq<string> {
    if q.authType != "tls" then []
    else if q.certs == [] then [""]
    else if q.certs[0].uris != [] then q.certs[0].uris
    else if q.certs[0].dnsNames != [] then q.certs[0].dnsNames
    else [q.certs[0].subject]
  }

  /** Several values of a header count as one, joined by commas. */
  function Joined(vs: seq<string>): string {
    if vs == [] then "" else if |vs| == 1 then vs[0] else vs[0] + "," + Joined(vs[1..])
  }

  /** One value stands for itself, and a comma joins what comes before it with what comes after. */
  lemma {:induction false} JoinedMeans(vs: seq<string>, ws: seq<string>)
    requires vs != [] && ws != []
    ensures Joined(vs + ws) == Joined(vs) + "," + Joined(ws)
    ensures |vs| == 1 ==> Joined(vs) == vs[0]
  {
    if |vs| > 1 {
      JoinedMeans(vs[1..], ws);
      assert (vs + ws)[1..] == vs[1..] + ws;
      Associative(vs[0] + ",", Joined(vs[1..]), "," + Joined(ws));
      Associative(Joined(vs[1..]), ",", Joined(ws));
    } else {
      assert (vs + ws)[1..] == ws;
    }
  }

  lemma Associative(a: string, b: string, c: string)
    ensures (a + b) + c == a + (b + c)
  {
  }

  /** The parts of a text between commas. */
  function SplitAtCommas(s: string): (parts: seq<string>)
    ensures parts != []
  {
    if s == "" then [""]
    else
      var rest := SplitAtCommas(s[1..]);
      if s[0] == ',' then [""] + rest else [[s[0]] + rest[0]] + rest[1..]
  }

  /** Nothing is lost: values without commas can be read back. */
  lemma {:induction false} JoinedSplits(vs: seq<string>)
    requires vs != [] && forall i :: 0 <= i < |vs| ==> ',' !in vs[i]
    ensures SplitAtCommas(Joined(vs)) == vs
    decreases |vs|
  {
    if |vs| == 1 {
      SplitFirst(vs[0], None);
    } else {
      JoinedSplits(vs[1..]);
      SplitFirst(vs[0], Some(Joined(vs[1..])));
      assert vs == [vs[0]] + vs[1..];
    }
  }

  lemma {:induction false} SplitFirst(v: string, rest: Option<string>)
    requires ',' !in v
    ensures var s := if rest.Some? then v + "," + rest.value else v;
            SplitAtCommas(s) == [v] + if rest.Some? then SplitAtCommas(rest.value) else []
  {
    var s := if rest.Some? then v + "," + rest.value else v;
    if v != "" {
      SplitFirst(v[1..], rest);
      assert s[1..] == if rest.Some? then v[1..] + "," + rest.value else v[1..];
      assert [v[0]] + v[1..] == v;
    } else if rest.Some? {
      assert s[1..] == rest.value;
    }
  }

  ghost predicate SomeFits(patterns: seq<string>, s: string) {
    exists i :: 0 <= i < |patterns| && Fits(patterns[i], s)
  }

  ghost predicate HeaderFits(h: Header, md: Metadata) {
    var key := ToLower(h.key);
    key in md && SomeFits(h.values, Joined(md[key]))
  }

  /** Any of the principals, any of the paths, all of the headers; what a rule leaves out matches everything. */
  ghost predicate RuleFits(r: Rule, q: Request) {
    && (r.principals == [] || exists n :: 0 <= n < |Names(q)| && SomeFits(r.principals, Names(q)[n]))
    && (r.paths == [] || SomeFits(r.paths, q.fullMethod))
    && (forall i :: 0 <= i < |r.headers| ==> HeaderFits(r.headers[i], q.metadata))
  }

  ghost predicate SomeRuleFits(rules: seq<Rule>, q: Request) {
    exists i :: 0 <= i < |rules| && RuleFits(rules[i], q)
  }

  /** No deny rule matches and some allow rule does. */
  ghost predicate Authorized(p: Policy, q: Request) {
    !SomeRuleFits(p.denyRules, q) && SomeRuleFits(p.allowRules, q)
  }

  // ---------------------------------------------------------------- the target

  /** `AnyText` is the regular expression `.+`, matched against the whole string. */
  datatype StringMatcher = Exact(s: string) | Prefix(s: string) | Suffix(s: string) | AnyText

  datatype Permission =
    | AndRules(rules: seq<Permission>)
    | OrRules(rules: seq<Permission>)
    | NotRule(rule: Permission)
    | AnyPermission
    | MetadataRule(invert: bool)
    | HeaderRule(name: string, value: StringMatcher)
    | UrlPath(path: StringMatcher)

  datatype Principal =
    | AndIds(ids: seq<Principal>)
    | OrIds(ids: seq<Principal>)
    | NotId(id: Principal)
    | AnyPrincipal
    | MetadataId(invert: bool)
    | HeaderId(name: string, value: StringMatcher)
    | UrlPathId(path: StringMatcher)
    | Authenticated(principalName: StringMatcher)

  datatype RbacPolicy = RbacPolicy(principals: seq<Principal>, permissions: seq<Permission>)

  datatype Action = ALLOW | DENY

  datatype Rbac = Rbac(action: Action, policies: map<string, RbacPolicy>)

  // ---------------------------------------------------------------- what it means

  predicate StringMatches(m: StringMatcher, s: string) {
    match m
    case Exact(x) => s == x
    case Prefix(x) => |x| <= |s| && s[..|x|] == x
    case Suffix(x) => |x| <= |s| && s[|s| - |x|..] == x
    case AnyText => s != "" && '\n' !in s
  }

  predicate HeaderMatches(name: string, m: StringMatcher, md: Metadata) {
    var key := ToLower(name);
    key in md && StringMatches(m, Joined(md[key]))
  }

  /** The peer's certificate is searched in the order of its sources. */
  predicate PeerMatches(m: StringMatcher, q: Request) {
    if q.authType != "tls" then false
    else if q.certs == [] then StringMatches(m, "")
    else
      var cert := q.certs[0];
      if cert.uris != [] then exists i :: 0 <= i < |cert.uris| && StringMatches(m, cert.uris[i])
      else if cert.dnsNames != [] then exists i :: 0 <= i < |cert.dnsNames| && StringMatches(m, cert.dnsNames[i])
      else StringMatches(m, cert.subject)
  }

  predicate PermissionMatches(p: Permission, q: Request) {
    match p
    case AndRules(rules) => forall i :: 0 <= i < |rules| ==> PermissionMatches(rules[i], q)
    case OrRules(rules) => exists i :: 0 <= i < |rules| && PermissionMatches(rules[i], q)
    case NotRule(rule) => !PermissionMatches(rule, q)
    case AnyPermission => true
    case MetadataRule(invert) => invert
    case HeaderRule(name, value) => HeaderMatches(name, value, q.metadata)
    case UrlPath(path) => StringMatches(path, q.fullMethod)
  }

  predicate PrincipalMatches(p: Principal, q: Request) {
    match p
    case AndIds(ids) => forall i :: 0 <= i < |ids| ==> PrincipalMatches(ids[i], q)
    case OrIds(ids) => exists i :: 0 <= i < |ids| && PrincipalMatches(ids[i], q)
    case NotId(id) => !PrincipalMatches(id, q)
    case AnyPrincipal => true
    case MetadataId(invert) => invert
    case HeaderId(name, value) => HeaderMatches(name, value, q.metadata)
    case UrlPathId(path) => StringMatches(path, q.fullMethod)
    case Authenticated(name) => PeerMatches(name, q)
  }

  predicate PolicyMatches(p: RbacPolicy, q: Request) {
    && (exists i :: 0 <= i < |p.permissions| && PermissionMatches(p.permissions[i], q))
    && (exists i :: 0 <= i < |p.principals| && PrincipalMatches(p.principals[i], q))
  }

  /** What building an engine checks: no empty prefix or suffix. */
  predicate ValidMatcher(m: StringMatcher) {
    !(m.Prefix? && m.s == "") && !(m.Suffix? && m.s == "")
  }

  /** Refused is exactly a prefix or suffix that every text has. */
  lemma ValidMatcherMeans(m: StringMatcher)
    ensures ValidMatcher(m) <==> m.Exact? || m.AnyText? || m.s != ""
    ensures m.Prefix? || m.Suffix? ==> (ValidMatcher(m) <==> !forall t :: StringMatches(m, t))
  {
    if (m.Prefix? || m.Suffix?) && m.s != "" {
      assert !StringMatches(m, "");
    }
  }

  predicate ValidPermission(p: Permission) {
    match p
    case AndRules(rules) => forall i :: 0 <= i < |rules| ==> ValidPermission(rules[i])
    case OrRules(rules) => forall i :: 0 <= i < |rules| ==> ValidPermission(rules[i])
    case NotRule(rule) => ValidPermission(rule)
    case AnyPermission => true
    case MetadataRule(_) => true
    case HeaderRule(_, value) => ValidMatcher(value)
    case UrlPath(path) => ValidMatcher(path)
  }

  predicate ValidPrincipal(p: Principal) {
    match p
    case AndIds(ids) => forall i :: 0 <= i < |ids| ==> ValidPrincipal(ids[i])
    case OrIds(ids) => forall i :: 0 <= i < |ids| ==> ValidPrincipal(ids[i])
    case NotId(id) => ValidPrincipal(id)
    case AnyPrincipal => true
    case MetadataId(_) => true
    case HeaderId(_, value) => ValidMatcher(value)
    case UrlPathId(path) => ValidMatcher(path)
    case Authenticated(name) => ValidMatcher(name)
  }

  predicate ValidPolicy(p: RbacPolicy) {
    && (forall i :: 0 <= i < |p.permissions| ==> ValidPermission(p.permissions[i]))
    && (forall i :: 0 <= i < |p.principals| ==> ValidPrincipal(p.principals[i]))
  }

  /** The request as the engines see it, with the pseudo-headers filled in. */
  function RpcData(q: Request): Request {
    q.(metadata := (q.metadata - {"TE"})[":method" := ["POST"]][":path" := [q.fullMethod]])
  }

  /** The engine sees the metadata of the call, without TE and with method and path as pseudo-headers. */
  lemma RpcDataMeans(q: Request, k: string)
    ensures var d := RpcData(q);
            && d == q.(metadata := d.metadata)
            && (k in d.metadata <==> k == ":method" || k == ":path" || (k in q.metadata && k != "TE"))
            && d.metadata[":method"] == ["POST"] && d.metadata[":path"] == [q.fullMethod]
            && (k in d.metadata && k != ":method" && k != ":path" ==> d.metadata[k] == q.metadata[k])
  {
  }

  /** Rules compose as their names say; a rule on dynamic metadata, which no call has, holds exactly if inverted. */
  lemma PermissionMeans(p: Permission, ps: seq<Permission>, invert: bool, q: Request)
    ensures PermissionMatches(NotRule(p), q) <==> !PermissionMatches(p, q)
    ensures PermissionMatches(AndRules(ps + [p]), q) <==> PermissionMatches(AndRules(ps), q) && PermissionMatches(p, q)
    ensures PermissionMatches(OrRules(ps + [p]), q) <==> PermissionMatches(OrRules(ps), q) || PermissionMatches(p, q)
    ensures PermissionMatches(AndRules([]), q) && !PermissionMatches(OrRules([]), q)
    ensures PermissionMatches(AnyPermission, q) && (PermissionMatches(MetadataRule(invert), q) <==> invert)
  {
    var all := ps + [p];
    assert all[|ps|] == p && forall i :: 0 <= i < |ps| ==> all[i] == ps[i];
    if i :| 0 <= i < |ps| && PermissionMatches(ps[i], q) {
      assert PermissionMatches(all[i], q);
    }
  }

  // ---------------------------------------------------------------- the engines

  /** What an engine evaluates. */
  datatype Matcher =
    | AndMatcher(matchers: seq<Matcher>)
    | OrMatcher(matchers: seq<Matcher>)
    | NotMatcher(matcherToNot: Matcher)
    | AlwaysMatcher
    | NeverMatcher
    | HeaderMatcher(name: string, value: StringMatcher)
    | URLPathMatcher(path: StringMatcher)
    | AuthenticatedMatcher(principalName: StringMatcher)

  datatype PolicyMatcher = PolicyMatcher(permissions: Matcher, principals: Matcher)

  datatype Engine = Engine(action: Action, policies: map<string, PolicyMatcher>)

  predicate Match(m: Matcher, q: Request) {
    match m
    case AndMatcher(ms) => forall i :: 0 <= i < |ms| ==> Match(ms[i], q)
    case OrMatcher(ms) => exists i :: 0 <= i < |ms| && Match(ms[i], q)
    case NotMatcher(m) => !Match(m, q)
    case AlwaysMatcher => true
    case NeverMatcher => false
    case HeaderMatcher(name, value) => HeaderMatches(name, value, q.metadata)
    case URLPathMatcher(path) => StringMatches(path, q.fullMethod)
    case AuthenticatedMatcher(name) => PeerMatches(name, q)
  }

  predicate MatchPolicy(m: PolicyMatcher, q: Request) {
    Match(m.permissions, q) && Match(m.principals, q)
  }

  /** The matcher accepts the requests that the permission, principal or policy stands for. */
  ghost predicate Grants(m: Matcher, p: Permission) {
    forall q :: Match(m, q) <==> PermissionMatches(p, q)
  }

  ghost predicate Identifies(m: Matcher, p: Principal) {
    forall q :: Match(m, q) <==> PrincipalMatches(p, q)
  }

  ghost predicate Implements(m: PolicyMatcher, p: RbacPolicy) {
    forall q :: MatchPolicy(m, q) <==> PolicyMatches(p, q)
  }

  ghost predicate AllGrant(ms: seq<Matcher>, ps: seq<Permission>) {
    |ms| == |ps| && forall i :: 0 <= i < |ms| ==> Grants(ms[i], ps[i])
  }

  ghost predicate AllIdentify(ms: seq<Matcher>, ps: seq<Principal>) {
    |ms| == |ps| && forall i :: 0 <= i < |ms| ==> Identifies(ms[i], ps[i])
  }

  lemma ListGrants(ms: seq<Matcher>, ps: seq<Permission>)
    requires AllGrant(ms, ps)
    ensures Grants(AndMatcher(ms), AndRules(ps)) && Grants(OrMatcher(ms), OrRules(ps))
  {
    hide HeaderMatches, PeerMatches, StringMatches;
    forall q
      ensures Match(AndMatcher(ms), q) <==> PermissionMatches(AndRules(ps), q)
      ensures Match(OrMatcher(ms), q) <==> PermissionMatches(OrRules(ps), q)
    {
      assert forall i :: 0 <= i < |ms| ==> Grants(ms[i], ps[i]) && (Match(ms[i], q) <==> PermissionMatches(ps[i], q));
    }
  }

  lemma ListIdentifies(ms: seq<Matcher>, ps: seq<Principal>)
    requires AllIdentify(ms, ps)
    ensures Identifies(AndMatcher(ms), AndIds(ps)) && Identifies(OrMatcher(ms), OrIds(ps))
  {
    hide HeaderMatches, PeerMatches, StringMatches;
    forall q
      ensures Match(AndMatcher(ms), q) <==> PrincipalMatches(AndIds(ps), q)
      ensures Match(OrMatcher(ms), q) <==> PrincipalMatches(OrIds(ps), q)
    {
      assert forall i :: 0 <= i < |ms| ==>
          Identifies(ms[i], ps[i]) && (Match(ms[i], q) <==> PrincipalMatches(ps[i], q));
    }
  }

  /** The matchers for a list of permissions, or nothing if one of them has an empty prefix or suffix somewhere. */
  method MatchersFromPermissions(ps: seq<Permission>) returns (r: Option<seq<Matcher>>)
    ensures r.Some? <==> forall i :: 0 <= i < |ps| ==> ValidPermission(ps[i])
    ensures r.Some? ==> AllGrant(r.value, ps)
    decreases ps
  {
    hide Grants, ValidPermission;
    var ms := [];
    for i := 0 to |ps|
      invariant AllGrant(ms, ps[..i]) && forall j :: 0 <= j < i ==> ValidPermission(ps[j])
    {
      var m := MatcherFromPermission(ps[i]);
      if m.None? {
        return None;
      }
      ms := ms + [m.value];
    }
    assert ps[..|ps|] == ps;
    r := Some(ms);
  }

  method MatcherFromPermission(p: Permission) returns (r: Option<Matcher>)
    ensures r.Some? <==> ValidPermission(p)
    ensures r.Some? ==> Grants(r.value, p)
    decreases p
  {
    hide HeaderMatches, PeerMatches, StringMatches, ValidMatcher;
    match p {
      case AndRules(rules) =>
        var ms := MatchersFromPermissions(rules);
        if ms.None? { return None; }
        ListGrants(ms.value, rules);
        return Some(AndMatcher(ms.value));
      case OrRules(rules) =>
        var ms := MatchersFromPermissions(rules);
        if ms.None? { return None; }
        ListGrants(ms.value, rules);
        return Some(OrMatcher(ms.value));
      case NotRule(rule) =>
        var m := MatcherFromPermission(rule);
        if m.None? { return None; }
        assert forall q :: Match(NotMatcher(m.value), q) <==> !Match(m.value, q);
        return Some(NotMatcher(m.value));
      case AnyPermission => return Some(AlwaysMatcher);
      case MetadataRule(invert) => return Some(if invert then AlwaysMatcher else NeverMatcher);
      case HeaderRule(name, value) => return if ValidMatcher(value) then Some(HeaderMatcher(name, value)) else None;
      case UrlPath(path) => return if ValidMatcher(path) then Some(URLPathMatcher(path)) else None;
    }
  }

  method MatchersFromPrincipals(ps: seq<Principal>) returns (r: Option<seq<Matcher>>)
    ensures r.Some? <==> forall i :: 0 <= i < |ps| ==> ValidPrincipal(ps[i])
    ensures r.Some? ==> AllIdentify(r.value, ps)
    decreases ps
  {
    hide Identifies, ValidPrincipal;
    var ms := [];
    for i := 0 to |ps|
      invariant AllIdentify(ms, ps[..i]) && forall j :: 0 <= j < i ==> ValidPrincipal(ps[j])
    {
      var m := MatcherFromPrincipal(ps[i]);
      if m.None? {
        return None;
      }
      ms := ms + [m.value];
    }
    assert ps[..|ps|] == ps;
    r := Some(ms);
  }

  method MatcherFromPrincipal(p: Principal) returns (r: Option<Matcher>)
    ensures r.Some? <==> ValidPrincipal(p)
    ensures r.Some? ==> Identifies(r.value, p)
    decreases p
  {
    hide HeaderMatches, PeerMatches, StringMatches, ValidMatcher;
    match p {
      case AndIds(ids) =>
        var ms := MatchersFromPrincipals(ids);
        if ms.None? { return None; }
        ListIdentifies(ms.value, ids);
        return Some(AndMatcher(ms.value));
      case OrIds(ids) =>
        var ms := MatchersFromPrincipals(ids);
        if ms.None? { return None; }
        ListIdentifies(ms.value, ids);
        return Some(OrMatcher(ms.value));
      case NotId(id) =>
        var m := MatcherFromPrincipal(id);
        if m.None? { return None; }
        assert forall q :: Match(NotMatcher(m.value), q) <==> !Match(m.value, q);
        return Some(NotMatcher(m.value));
      case AnyPrincipal => return Some(AlwaysMatcher);
      case MetadataId(invert) => return Some(if invert then AlwaysMatcher else NeverMatcher);
      case HeaderId(name, value) => return if ValidMatcher(value) then Some(HeaderMatcher(name, value)) else None;
      case UrlPathId(path) => return if ValidMatcher(path) then Some(URLPathMatcher(path)) else None;
      case Authenticated(name) => return if ValidMatcher(name) then Some(AuthenticatedMatcher(name)) else None;
    }
  }

  method NewPolicyMatcher(p: RbacPolicy) returns (r: Option<PolicyMatcher>)
    ensures r.Some? <==> ValidPolicy(p)
    ensures r.Some? ==> Implements(r.value, p)
  {
    hide ValidPermission, ValidPrincipal;
    var permissions := MatchersFromPermissions(p.permissions);
    if permissions.None? {
      return None;
    }
    var principals := MatchersFromPrincipals(p.principals);
    if principals.None? {
      return None;
    }
    ListGrants(permissions.value, p.permissions);
    ListIdentifies(principals.value, p.principals);
    PolicyByLists(p);
    r := Some(PolicyMatcher(OrMatcher(permissions.value), OrMatcher(principals.value)));
  }

  lemma PolicyByLists(p: RbacPolicy)
    ensures forall q :: PolicyMatches(p, q) <==>
              PermissionMatches(OrRules(p.permissions), q) && PrincipalMatches(OrIds(p.principals), q)
  {
  }

  /** The engine evaluates the policies of the configuration. */
  ghost predicate Runs(e: Engine, config: Rbac) {
    && e.action == config.action && e.policies.Keys == config.policies.Keys
    && forall name :: name in e.policies ==> Implements(e.policies[name], config.policies[name])
  }

  predicate ValidRbac(config: Rbac) {
    forall name :: name in config.policies ==> ValidPolicy(config.policies[name])
  }

  method NewEngine(config: Rbac) returns (r: Option<Engine>)
    ensures r.Some? <==> ValidRbac(config)
    ensures r.Some? ==> Runs(r.value, config)
  {
    hide Implements, ValidPolicy;
    var policies: map<string, PolicyMatcher> := map[];
    var todo := config.policies.Keys;
    while todo != {}
      invariant todo <= config.policies.Keys && policies.Keys == config.policies.Keys - todo
      invariant forall name :: name in policies ==>
                  ValidPolicy(config.policies[name]) && Implements(policies[name], config.policies[name])
      decreases todo
    {
      var name :| name in todo;
      var m := NewPolicyMatcher(config.policies[name]);
      if m.None? {
        return None;
      }
      policies := policies[name := m.value];
      todo := todo - {name};
    }
    r := Some(Engine(config.action, policies));
  }

  /** One engine per configuration, in order, each of which evaluates its own; building them fails exactly on an empty
      prefix or suffix. */
  method NewChainEngine(configs: seq<Rbac>) returns (r: Option<seq<Engine>>)
    ensures r.Some? <==> forall i :: 0 <= i < |configs| ==> ValidRbac(configs[i])
    ensures r.Some? ==> |r.value| == |configs| && forall i :: 0 <= i < |configs| ==> Runs(r.value[i], configs[i])
  {
    hide Runs, ValidRbac;
    var engines := [];
    for k := 0 to |configs|
      invariant |engines| == k && forall i :: 0 <= i < k ==> ValidRbac(configs[i]) && Runs(engines[i], configs[i])
    {
      var e := NewEngine(configs[k]);
      if e.None? {
        return None;
      }
      engines := engines + [e.value];
    }
    r := Some(engines);
  }

  method FindMatchingPolicy(e: Engine, q: Request) returns (name: string, found: bool)
    ensures found <==> exists n :: n in e.policies && MatchPolicy(e.policies[n], q)
    ensures found ==> name in e.policies && MatchPolicy(e.policies[name], q)
  {
    hide MatchPolicy;
    var todo := e.policies.Keys;
    while todo != {}
      invariant todo <= e.policies.Keys
      invariant forall n :: n in e.policies && n !in todo ==> !MatchPolicy(e.policies[n], q)
      decreases todo
    {
      name :| name in todo;
      if MatchPolicy(e.policies[name], q) {
        return name, true;
      }
      todo := todo - {name};
    }
    return "", false;
  }

  /** An engine lets a request through. */
  ghost predicate Passes(config: Rbac, q: Request) {
    config.action == ALLOW <==> exists name :: name in config.policies && PolicyMatches(config.policies[name], q)
  }

  lemma RunsMeans(e: Engine, config: Rbac, q: Request)
    requires Runs(e, config)
    ensures (exists n :: n in e.policies && MatchPolicy(e.policies[n], q)) <==>
              exists n :: n in config.policies && PolicyMatches(config.policies[n], q)
  {
    hide MatchPolicy, PolicyMatches;
    if n :| n in config.policies && PolicyMatches(config.policies[n], q) {
      assert n in e.policies && Implements(e.policies[n], config.policies[n]);
    }
    if n :| n in e.policies && MatchPolicy(e.policies[n], q) {
      assert n in config.policies && Implements(e.policies[n], config.policies[n]);
    }
  }

  /** A request is authorized exactly when every engine of the chain lets it through: an allow engine if one of its
      policies matches, a deny engine if none does. */
  method IsAuthorized(engines: seq<Engine>, ghost configs: seq<Rbac>, request: Request) returns (ok: bool)
    requires |engines| == |configs| && forall i :: 0 <= i < |configs| ==> Runs(engines[i], configs[i])
    ensures ok <==> forall i :: 0 <= i < |configs| ==> Passes(configs[i], RpcData(request))
  {
    hide MatchPolicy, PolicyMatches, Implements;
    var q := RpcData(request);
    for k := 0 to |engines|
      invariant forall i :: 0 <= i < k ==> Passes(configs[i], q)
    {
      var name, found := FindMatchingPolicy(engines[k], q);
      RunsMeans(engines[k], configs[k], q);
      if engines[k].action == ALLOW && !found {
        return false;
      } else if engines[k].action == DENY && found {
        return false;
      }
    }
    ok := true;
  }

  // ---------------------------------------------------------------- the translator

  function GetStringMatcher(value: string): (m: StringMatcher)
    ensures ValidMatcher(m)
  {
    if value == "*" then AnyText
    else if |value| > 0 && value[|value| - 1] == '*' then Prefix(value[..|value| - 1])
    else if |value| > 0 && value[0] == '*' then Suffix(value[1..])
    else Exact(value)
  }

  /** The matcher accepts what the pattern stands for. */
  lemma MatcherMeans(pattern: string, s: string)
    ensures StringMatches(GetStringMatcher(pattern), s) <==> Fits(pattern, s)
  {
    var m := GetStringMatcher(pattern);
    if m.Prefix? {
      if StringMatches(m, s) { assert Cat(m.s, s[|m.s|..]) == s; }
      if t :| Cat(m.s, t) == s { assert s[..|m.s|] == m.s; }
    } else if m.Suffix? {
      if StringMatches(m, s) { assert Cat(s[..|s| - |m.s|], m.s) == s; }
      if t :| Cat(t, m.s) == s { assert s[|s| - |m.s|..] == m.s; }
    }
  }

  /** Read as "any text that is not empty", `*` differs exactly on text with a line break. */
  lemma StarIsAlmostNonEmpty(s: string)
    ensures (StringMatches(GetStringMatcher("*"), s) <==> s != "") <==> s == "" || '\n' !in s
  {
  }

  method ParsePrincipalNames(names: seq<string>) returns (ps: seq<Principal>)
    ensures |ps| == |names| && forall i :: 0 <= i < |ps| ==> ps[i] == Authenticated(GetStringMatcher(names[i]))
  {
    ps := [];
    for k := 0 to |names|
      invariant |ps| == k && forall i :: 0 <= i < k ==> ps[i] == Authenticated(GetStringMatcher(names[i]))
    {
      ps := ps + [Authenticated(GetStringMatcher(names[k]))];
    }
  }

  lemma PeerMeans(pattern: string, q: Request)
    ensures PeerMatches(GetStringMatcher(pattern), q) <==> exists n :: 0 <= n < |Names(q)| && Fits(pattern, Names(q)[n])
  {
    var m := GetStringMatcher(pattern);
    PeerByName(m, q);
    forall n | 0 <= n < |Names(q)|
      ensures StringMatches(m, Names(q)[n]) <==> Fits(pattern, Names(q)[n])
    {
      MatcherMeans(pattern, Names(q)[n]);
    }
  }

  lemma PeerByName(m: StringMatcher, q: Request)
    ensures PeerMatches(m, q) <==> exists n :: 0 <= n < |Names(q)| && StringMatches(m, Names(q)[n])
  {
    hide StringMatches;
    var names := Names(q);
    assert PeerMatches(m, q) <==> exists n :: 0 <= n < |names| && StringMatches(m, names[n]) by {
      assert |names| == 1 ==> (StringMatches(m, names[0]) <==>
          exists n :: 0 <= n < |names| && StringMatches(m, names[n]));
    }
  }

  ghost predicate PeerRenders(p: Principal, principals: seq<string>) {
    && ValidPrincipal(p)
    && forall q :: PrincipalMatches(p, q) <==>
         principals == [] || exists n :: 0 <= n < |Names(q)| && SomeFits(principals, Names(q)[n])
  }

  /** The rule's principals: anyone when it names none. */
  method ParsePeer(principals: seq<string>) returns (p: Principal)
    ensures PeerRenders(p, principals)
  {
    if principals == [] {
      return AnyPrincipal;
    }
    var ps := ParsePrincipalNames(principals);
    p := OrIds(ps);
    forall q
      ensures PrincipalMatches(p, q) <==> exists n :: 0 <= n < |Names(q)| && SomeFits(principals, Names(q)[n])
    {
      forall i | 0 <= i < |principals|
        ensures PrincipalMatches(ps[i], q) <==> exists n :: 0 <= n < |Names(q)| && Fits(principals[i], Names(q)[n])
      {
        PeerMeans(principals[i], q);
      }
      OrOfPeers(ps, principals, q);
    }
  }

  lemma OrOfPeers(ps: seq<Principal>, patterns: seq<string>, q: Request)
    requires |ps| == |patterns|
    requires forall i :: 0 <= i < |ps| ==> (PrincipalMatches(ps[i], q) <==>
               exists n :: 0 <= n < |Names(q)| && Fits(patterns[i], Names(q)[n]))
    ensures PrincipalMatches(OrIds(ps), q) <==> exists n :: 0 <= n < |Names(q)| && SomeFits(patterns, Names(q)[n])
  {
    hide Fits;
    if i :| 0 <= i < |ps| && PrincipalMatches(ps[i], q) {
      var n :| 0 <= n < |Names(q)| && Fits(patterns[i], Names(q)[n]);
      assert SomeFits(patterns, Names(q)[n]);
    }
    if n :| 0 <= n < |Names(q)| && SomeFits(patterns, Names(q)[n]) {
      var i :| 0 <= i < |patterns| && Fits(patterns[i], Names(q)[n]);
      assert PrincipalMatches(ps[i], q);
    }
  }

  method ParsePaths(paths: seq<string>) returns (ps: seq<Permission>)
    ensures |ps| == |paths| && forall i :: 0 <= i < |ps| ==> ps[i] == UrlPath(GetStringMatcher(paths[i]))
  {
    ps := [];
    for k := 0 to |paths|
      invariant |ps| == k && forall i :: 0 <= i < k ==> ps[i] == UrlPath(GetStringMatcher(paths[i]))
    {
      ps := ps + [UrlPath(GetStringMatcher(paths[k]))];
    }
  }

  method ParseHeaderValues(key: string, values: seq<string>) returns (vs: seq<Permission>)
    ensures |vs| == |values| && forall i :: 0 <= i < |vs| ==> vs[i] == HeaderRule(key, GetStringMatcher(values[i]))
  {
    vs := [];
    for k := 0 to |values|
      invariant |vs| == k && forall i :: 0 <= i < k ==> vs[i] == HeaderRule(key, GetStringMatcher(values[i]))
    {
      vs := vs + [HeaderRule(key, GetStringMatcher(values[k]))];
    }
  }

  const UNSUPPORTED_HEADERS := {
    "host", "connection", "keep-alive", "proxy-authenticate", "proxy-authorization", "te", "trailer",
    "transfer-encoding", "upgrade"}

  predicate UnsupportedHeader(key: string)
    requires key != ""
  {
    key[0] == ':' || (|key| >= 5 && key[..5] == "grpc-") || key in UNSUPPORTED_HEADERS
  }

  /** Pseudo-headers, gRPC's own and hop-by-hop headers cannot be named. */
  lemma UnsupportedMeans(key: string)
    requires key != ""
    ensures UnsupportedHeader(key) <==>
              || Begins(key, ":") || Begins(key, "grpc-")
              || key == "host" || key == "connection" || key == "keep-alive" || key == "proxy-authenticate"
              || key == "proxy-authorization" || key == "te" || key == "trailer" || key == "transfer-encoding"
              || key == "upgrade"
  {
    if key[0] == ':' {
      assert Cat(":", key[1..]) == key;
    }
    if |key| >= 5 && key[..5] == "grpc-" {
      assert Cat("grpc-", key[5..]) == key;
    }
    if t :| Cat("grpc-", t) == key {
      assert key[..5] == "grpc-";
    }
  }

  /** A header the translator refuses. */
  predicate BadHeader(h: Header) {
    h.key == "" || UnsupportedHeader(ToLower(h.key)) || h.values == []
  }

  predicate BadRule(r: Rule) {
    r.name == "" || exists i :: 0 <= i < |r.headers| && BadHeader(r.headers[i])
  }

  /** The permission says of a request what the header says of its metadata. */
  ghost predicate Renders(p: Permission, h: Header) {
    ValidPermission(p) && forall q :: PermissionMatches(p, RpcData(q)) <==> HeaderFits(h, q.metadata)
  }

  /** Filling in the pseudo-headers does not touch a header a policy may name. */
  lemma SameHeader(key: string, q: Request)
    requires key != "" && !UnsupportedHeader(ToLower(key))
    ensures var k := ToLower(key);
            (k in RpcData(q).metadata <==> k in q.metadata) &&
                (k in q.metadata ==> RpcData(q).metadata[k] == q.metadata[k])
  {
    var k := ToLower(key);
    assert k[0] != ':' && k[0] != 'T';
  }

  lemma HeaderMeans(h: Header, vs: seq<Permission>)
    requires !BadHeader(h) && |vs| == |h.values|
    requires forall i :: 0 <= i < |vs| ==> vs[i] == HeaderRule(ToLower(h.key), GetStringMatcher(h.values[i]))
    ensures Renders(OrRules(vs), h)
  {
    assert forall i :: 0 <= i < |vs| ==> ValidPermission(vs[i]);
    assert ValidPermission(OrRules(vs));
    forall q
      ensures PermissionMatches(OrRules(vs), RpcData(q)) <==> HeaderFits(h, q.metadata)
    {
      var key := ToLower(h.key);
      SameHeader(h.key, q);
      LowerTwice(h.key);
      if key in q.metadata {
        var v := Joined(q.metadata[key]);
        forall i | 0 <= i < |vs|
          ensures PermissionMatches(vs[i], RpcData(q)) <==> Fits(h.values[i], v)
        {
          MatcherMeans(h.values[i], v);
        }
        hide Fits;
      }
    }
  }

  /** All headers, or the first one refused. */
  method ParseHeaders(headers: seq<Header>) returns (r: Result<seq<Permission>, nat>)
    ensures r.Ok? <==> forall i :: 0 <= i < |headers| ==> !BadHeader(headers[i])
    ensures r.Err? ==> r.error < |headers| && BadHeader(headers[r.error]) && forall i :: 0 <= i < r.error ==>
              !BadHeader(headers[i])
    ensures r.Ok? ==> |r.value| == |headers| && forall i :: 0 <= i < |headers| ==> Renders(r.value[i], headers[i])
  {
    var hs: seq<Permission> := [];
    for i := 0 to |headers|
      invariant |hs| == i && forall j :: 0 <= j < i ==> !BadHeader(headers[j]) && Renders(hs[j], headers[j])
    {
      var header := headers[i];
      if header.key == "" {
        return Err(i);
      }
      var key := ToLower(header.key);
      if UnsupportedHeader(key) {
        return Err(i);
      }
      if header.values == [] {
        return Err(i);
      }
      var values := ParseHeaderValues(key, header.values);
      HeaderMeans(header, values);
      hide Renders;
      hs := hs + [OrRules(values)];
    }
    r := Ok(hs);
  }

  lemma PathsMean(paths: seq<string>, ps: seq<Permission>, q: Request)
    requires |ps| == |paths| && forall i :: 0 <= i < |ps| ==> ps[i] == UrlPath(GetStringMatcher(paths[i]))
    ensures PermissionMatches(OrRules(ps), RpcData(q)) <==> SomeFits(paths, q.fullMethod)
  {
    forall i | 0 <= i < |ps|
      ensures PermissionMatches(ps[i], RpcData(q)) <==> Fits(paths[i], q.fullMethod)
    {
      MatcherMeans(paths[i], q.fullMethod);
    }
    hide Fits;
  }

  /** What a rule asks of the request itself. */
  ghost predicate RequestFits(r: Rule, q: Request) {
    && (r.paths == [] || SomeFits(r.paths, q.fullMethod))
    && (forall i :: 0 <= i < |r.headers| ==> HeaderFits(r.headers[i], q.metadata))
  }

  ghost predicate RequestRenders(p: Permission, r: Rule) {
    ValidPermission(p) && forall q :: PermissionMatches(p, RpcData(q)) <==> RequestFits(r, q)
  }

  lemma RequestMeans(r: Rule, ps: seq<Permission>, hs: seq<Permission>, and: seq<Permission>)
    requires |ps| == |r.paths| && forall i :: 0 <= i < |ps| ==> ps[i] == UrlPath(GetStringMatcher(r.paths[i]))
    requires |hs| == |r.headers| && forall i :: 0 <= i < |hs| ==> Renders(hs[i], r.headers[i])
    requires and == (if r.paths == [] then [] else [OrRules(ps)]) + (if r.headers == [] then [] else [AndRules(hs)])
    ensures RequestRenders(AndRules(and), r)
  {
    forall q
      ensures PermissionMatches(AndRules(and), RpcData(q)) <==> RequestFits(r, q)
    {
      PathsMean(r.paths, ps, q);
      AndOf(r, hs, q);
      AndOfTwo(and, q);
    }
    assert forall i :: 0 <= i < |hs| ==> ValidPermission(hs[i]);
  }

  lemma AndOf(r: Rule, hs: seq<Permission>, q: Request)
    requires |hs| == |r.headers| && forall i :: 0 <= i < |hs| ==> Renders(hs[i], r.headers[i])
    ensures PermissionMatches(AndRules(hs), RpcData(q)) <==> forall i :: 0 <= i < |r.headers| ==>
              HeaderFits(r.headers[i], q.metadata)
  {
    hide HeaderFits;
    assert forall i :: 0 <= i < |hs| ==> (PermissionMatches(hs[i], RpcData(q)) <==>
        HeaderFits(r.headers[i], q.metadata));
  }

  lemma AndOfTwo(and: seq<Permission>, q: Request)
    requires |and| <= 2
    ensures PermissionMatches(AndRules(and), RpcData(q)) <==>
            (|and| > 0 ==> PermissionMatches(and[0], RpcData(q))) &&
                (|and| > 1 ==> PermissionMatches(and[1], RpcData(q)))
  {
  }

  method ParseRequest(r: Rule) returns (p: Result<Permission, nat>)
    ensures p.Ok? <==> forall i :: 0 <= i < |r.headers| ==> !BadHeader(r.headers[i])
    ensures p.Ok? ==> RequestRenders(p.value, r)
  {
    var and: seq<Permission> := [];
    var ps := ParsePaths(r.paths);
    if |r.paths| > 0 {
      and := and + [OrRules(ps)];
    }
    var hs := ParseHeaders(r.headers);
    if |r.headers| > 0 {
      if hs.Err? {
        return Err(hs.error);
      }
      and := and + [AndRules(hs.value)];
    }
    RequestMeans(r, ps, hs.value, and);
    hide RequestFits;
    if |and| > 0 {
      return Ok(AndRules(and));
    }
    p := Ok(AnyPermission);
  }

  // ---------------------------------------------------------------- rules and policies

  /** The translated rule matches the requests the rule matches, and an engine takes it. */
  ghost predicate Means(p: RbacPolicy, r: Rule) {
    ValidPolicy(p) && forall q :: PolicyMatches(p, RpcData(q)) <==> RuleFits(r, q)
  }

  lemma RuleMeans(r: Rule, principal: Principal, permission: Permission)
    requires PeerRenders(principal, r.principals) && RequestRenders(permission, r)
    ensures Means(RbacPolicy([principal], [permission]), r)
  {
    var p := RbacPolicy([principal], [permission]);
    forall q
      ensures PolicyMatches(p, RpcData(q)) <==> RuleFits(r, q)
    {
      assert Names(RpcData(q)) == Names(q);
      assert p.permissions[0] == permission && p.principals[0] == principal;
      hide SomeFits, HeaderFits;
    }
  }

  function Key(prefix: string, name: string): string {
    prefix + "_" + name
  }

  lemma KeyInjective(prefix: string, a: string, b: string)
    requires Key(prefix, a) == Key(prefix, b)
    ensures a == b
  {
    assert Key(prefix, a)[|prefix| + 1..] == a && Key(prefix, b)[|prefix| + 1..] == b;
  }

  /** No later rule has the same name. */
  predicate Last(rules: seq<Rule>, i: nat) {
    i < |rules| && forall j :: i < j < |rules| ==> rules[j].name != rules[i].name
  }

  /** The policies are the translations of the rules that are the last of their name. */
  ghost predicate Represents(policies: map<string, RbacPolicy>, rules: seq<Rule>, prefix: string) {
    && (forall i: nat :: Last(rules, i) ==>
          Key(prefix, rules[i].name) in policies && Means(policies[Key(prefix, rules[i].name)], rules[i]))
    && (forall k :: k in policies ==> exists i: nat :: Last(rules, i) && Key(prefix, rules[i].name) == k)
  }

  lemma RepresentsNone(prefix: string)
    ensures Represents(map[], [], prefix)
  {
  }

  lemma RepresentsMore(policies: map<string, RbacPolicy>, rules: seq<Rule>, prefix: string, r: Rule, p: RbacPolicy)
    requires Represents(policies, rules, prefix) && Means(p, r)
    ensures Represents(policies[Key(prefix, r.name) := p], rules + [r], prefix)
  {
    hide Means;
    var more := rules + [r];
    var policies' := policies[Key(prefix, r.name) := p];
    forall i: nat | Last(more, i)
      ensures Key(prefix, more[i].name) in policies' && Means(policies'[Key(prefix, more[i].name)], more[i])
    {
      if i < |rules| {
        assert Last(rules, i) && more[|rules|].name != more[i].name by {
          forall j | i < j < |rules|
            ensures rules[j].name != rules[i].name
          {
            assert more[j].name != more[i].name;
          }
        }
        if Key(prefix, rules[i].name) == Key(prefix, r.name) { KeyInjective(prefix, rules[i].name, r.name); }
      }
    }
    forall k | k in policies'
      ensures exists i: nat :: Last(more, i) && Key(prefix, more[i].name) == k
    {
      if k == Key(prefix, r.name) {
        assert Last(more, |rules|);
      } else {
        var i: nat :| Last(rules, i) && Key(prefix, rules[i].name) == k;
        assert Last(more, i);
      }
    }
  }

  /** The rules of one list, or the first one refused.  A later rule replaces an earlier one of the same name. */
  method ParseRules(rules: seq<Rule>, prefix: string) returns (r: Result<map<string, RbacPolicy>, nat>)
    ensures r.Ok? <==> forall i :: 0 <= i < |rules| ==> !BadRule(rules[i])
    ensures r.Err? ==> r.error < |rules| && BadRule(rules[r.error]) && forall i :: 0 <= i < r.error ==>
              !BadRule(rules[i])
    ensures r.Ok? ==> Represents(r.value, rules, prefix)
  {
    hide PeerRenders, RequestRenders, Represents, Means, BadHeader;
    var policies: map<string, RbacPolicy> := map[];
    RepresentsNone(prefix);
    for i := 0 to |rules|
      invariant Represents(policies, rules[..i], prefix)
      invariant forall j :: 0 <= j < i ==> !BadRule(rules[j])
    {
      if rules[i].name == "" {
        return Err(i);
      }
      var permission := ParseRequest(rules[i]);
      if permission.Err? {
        return Err(i);
      }
      var principal := ParsePeer(rules[i].principals);
      RuleMeans(rules[i], principal, permission.value);
      RepresentsMore(policies, rules[..i], prefix, rules[i], RbacPolicy([principal], [permission.value]));
      assert rules[..i] + [rules[i]] == rules[..i + 1];
      policies := policies[Key(prefix, rules[i].name) := RbacPolicy([principal], [permission.value])];
    }
    assert rules[..|rules|] == rules;
    r := Ok(policies);
  }

  /** Some rule that is the last of its name matches. */
  ghost predicate SomeLastFits(rules: seq<Rule>, q: Request) {
    exists i: nat :: Last(rules, i) && RuleFits(rules[i], q)
  }

  lemma EngineMeans(policies: map<string, RbacPolicy>, rules: seq<Rule>, prefix: string, q: Request)
    requires Represents(policies, rules, prefix)
    ensures (exists k :: k in policies && PolicyMatches(policies[k], RpcData(q))) <==> SomeLastFits(rules, q)
    ensures forall k :: k in policies ==> ValidPolicy(policies[k])
  {
    hide PolicyMatches, RuleFits, ValidPolicy;
    forall k | k in policies
      ensures ValidPolicy(policies[k])
      ensures PolicyMatches(policies[k], RpcData(q)) ==> SomeLastFits(rules, q)
    {
      var i: nat :| Last(rules, i) && Key(prefix, rules[i].name) == k;
      assert Means(policies[k], rules[i]);
    }
    if i: nat :| Last(rules, i) && RuleFits(rules[i], q) {
      assert Means(policies[Key(prefix, rules[i].name)], rules[i]);
    }
  }

  predicate DistinctNames(rules: seq<Rule>) {
    forall i, j :: 0 <= i < j < |rules| ==> rules[i].name != rules[j].name
  }

  lemma AllLast(rules: seq<Rule>, q: Request)
    requires DistinctNames(rules)
    ensures SomeLastFits(rules, q) <==> SomeRuleFits(rules, q)
  {
    hide RuleFits;
    if i: nat :| i < |rules| && RuleFits(rules[i], q) {
      assert Last(rules, i);
    }
  }

  // ---------------------------------------------------------------- the whole

  datatype Error = NoName | NoAllowRules | BadDenyRule(index: nat) | BadAllowRule(index: nat)

  /** A policy the translator refuses. */
  predicate BadPolicy(p: Policy) {
    || p.name == "" || p.allowRules == []
    || (exists i :: 0 <= i < |p.denyRules| && BadRule(p.denyRules[i]))
    || (exists i :: 0 <= i < |p.allowRules| && BadRule(p.allowRules[i]))
  }

  /** One engine for the deny rules, if there are any, then one for the allow rules. */
  method TranslatePolicy(p: Policy) returns (r: Result<seq<Rbac>, Error>)
    ensures r.Err? <==> BadPolicy(p)
    ensures r == Err(NoName) <==> p.name == ""
    ensures r == Err(NoAllowRules) <==> p.name != "" && p.allowRules == []
    ensures r.Err? && r.error.BadDenyRule? ==> r.error.index < |p.denyRules| && BadRule(p.denyRules[r.error.index])
    ensures r.Err? && r.error.BadAllowRule? ==>
              r.error.index < |p.allowRules| && BadRule(p.allowRules[r.error.index]) && forall i ::
                  0 <= i < |p.denyRules| ==> !BadRule(p.denyRules[i])
    ensures r.Ok? ==> && |r.value| == (if p.denyRules == [] then 1 else 2)
                      && r.value[|r.value| - 1].action == ALLOW &&
                           Represents(r.value[|r.value| - 1].policies, p.allowRules, p.name)
                      && (p.denyRules != [] ==>
                            r.value[0].action == DENY && Represents(r.value[0].policies, p.denyRules, p.name))
  {
    hide Represents, BadRule;
    if p.name == "" {
      return Err(NoName);
    }
    if p.allowRules == [] {
      return Err(NoAllowRules);
    }
    var rbacs: seq<Rbac> := [];
    if p.denyRules != [] {
      var deny := ParseRules(p.denyRules, p.name);
      if deny.Err? {
        return Err(BadDenyRule(deny.error));
      }
      rbacs := rbacs + [Rbac(DENY, deny.value)];
    }
    var allow := ParseRules(p.allowRules, p.name);
    if allow.Err? {
      return Err(BadAllowRule(allow.error));
    }
    r := Ok(rbacs + [Rbac(ALLOW, allow.value)]);
  }

  /** Some rule matches, but each that does is followed by another of its name. */
  ghost predicate Lost(rules: seq<Rule>, q: Request) {
    SomeRuleFits(rules, q) && !SomeLastFits(rules, q)
  }

  /** A lost deny rule lets the request through, or a lost allow rule keeps it out. */
  ghost predicate Misjudged(p: Policy, q: Request) {
    (Lost(p.denyRules, q) && SomeLastFits(p.allowRules, q)) || (Lost(p.allowRules, q) && !SomeRuleFits(p.denyRules, q))
  }

  lemma LastIsOne(rules: seq<Rule>, q: Request)
    ensures SomeLastFits(rules, q) ==> SomeRuleFits(rules, q)
  {
    hide RuleFits;
  }

  /** Translating a policy and evaluating the engines authorizes a request exactly when no deny rule matches and some
      allow rule does, the last rule of each name counting; with distinct names, every rule counts.  Every policy
      that translates gives valid engines. */
  method Authorize(p: Policy, q: Request) returns (r: Option<bool>)
    ensures r.None? <==> BadPolicy(p)
    ensures r.Some? ==> (r.value <==> !SomeLastFits(p.denyRules, q) && SomeLastFits(p.allowRules, q))
    ensures r.Some? ==> ((r.value <==> Authorized(p, q)) <==> !Misjudged(p, q))
    ensures r.Some? && DistinctNames(p.denyRules) && DistinctNames(p.allowRules) ==> (r.value <==> Authorized(p, q))
  {
    hide Represents, BadPolicy, PolicyMatches, SomeLastFits, SomeRuleFits, ValidPolicy, Runs;
    var rbacs := TranslatePolicy(p);
    if rbacs.Err? {
      return None;
    }
    var configs := rbacs.value;
    EngineMeans(configs[|configs| - 1].policies, p.allowRules, p.name, q);
    if p.denyRules != [] {
      EngineMeans(configs[0].policies, p.denyRules, p.name, q);
    } else {
      NoRules(q);
    }
    var engines := NewChainEngine(configs);
    var ok := IsAuthorized(engines.value, configs, q);
    LastIsOne(p.denyRules, q);
    LastIsOne(p.allowRules, q);
    if DistinctNames(p.denyRules) { AllLast(p.denyRules, q); }
    if DistinctNames(p.allowRules) { AllLast(p.allowRules, q); }
    r := Some(ok);
  }

  lemma NoRules(q: Request)
    ensures !SomeLastFits([], q)
  {
  }

  /** Two deny rules of one name: the first is lost, and a request it should refuse is let through. */
  lemma DuplicateNameLosesRule()
    ensures exists p: Policy, q: Request ::
              !BadPolicy(p) && !Authorized(p, q) && !SomeLastFits(p.denyRules, q) && SomeLastFits(p.allowRules, q)
  {
    var d0 := Rule("d", [], ["/a"], []);
    var d1 := Rule("d", [], ["/b"], []);
    var p := Policy("p", [d0, d1], [Rule("a", [], [], [])]);
    var q := Request("/a", map[], "", []);
    assert RuleFits(p.denyRules[0], q) by { assert Fits(d0.paths[0], q.fullMethod); }
    assert RuleFits(p.allowRules[0], q) && Last(p.allowRules, 0);
    assert !Last(p.denyRules, 0) by { assert p.denyRules[1].name == p.denyRules[0].name; }
    assert !RuleFits(p.denyRules[1], q);
    assert forall i: nat :: Last(p.denyRules, i) ==> i == 1;
    assert !SomeLastFits(p.denyRules, q) && SomeLastFits(p.allowRules, q) && !Authorized(p, q) && !BadPolicy(p);
  }
}
