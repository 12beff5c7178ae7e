/** The HAProxy frontend: an ordered list of rules made from the routes of all
    services, and which backend a request ends up at. */
module Frontend {
  import opened Rollout
  import opened Text

  /** A service's route. `previewOnly` marks the preview host's own route: it takes
      requests with the token and leaves all others to the other routes. */
  datatype Route = Route(
    hosts: seq<string>,
    path: string,
    backend: string,
    tlsRedirect: bool,
    previewToken: string,
    linkBackend: string,
    previewOnly: bool)
  {
    predicate WholeSite() {
      path == "" || path == "/"
    }
  }

  /** A request: the tokens it carries in the preview cookie or header, and the
      tokens in its link parameter. */
  datatype Request = Request(host: string, path: string, ssl: bool, carried: set<string>, linked: set<string>)

  datatype Answer = Health | ToHttps | SetCookie(secure: bool) | Backend(name: string) | NotFound

  predicate HostIn(host: string, hosts: seq<string>) {
    exists k :: 0 <= k < |hosts| && Lower(hosts[k]) == Lower(host)
  }

  // ------------------------------------------------------------ the rule list

  datatype Acl = HostAcl(i: nat, hosts: seq<string>) | NamedAcl(hosts: seq<string>) | PathAcl(i: nat, prefix: string)
    | TokenAcl(i: nat, token: string)

  datatype Atom = HostIs(i: nat) | NotNamed | PathIs(i: nat) | Carried(i: nat) | Linked(i: nat) | AnyToken(i: nat)
    | Free | Plain | Secure

  datatype Action = Silence | Redirect | SetQuery | ReturnLink(secure: bool) | Choose(backend: string)

  datatype Rule = Rule(action: Action, conditions: seq<Atom>)

  datatype Config = Config(acls: seq<Acl>, rules: seq<Rule>)

  /** Whether a condition holds. Several definitions of one name are alternatives. */
  predicate Holds(acls: seq<Acl>, atom: Atom, req: Request, chosen: Option<string>) {
    match atom
    case HostIs(i) => exists a :: a in acls && a.HostAcl? && a.i == i && HostIn(req.host, a.hosts)
    case NotNamed => !exists a :: a in acls && a.NamedAcl? && HostIn(req.host, a.hosts)
    case PathIs(i) => exists a :: a in acls && a.PathAcl? && a.i == i && a.prefix <= req.path
    case Carried(i) => exists a :: a in acls && a.TokenAcl? && a.i == i && a.token in req.carried
    case Linked(i) => exists a :: a in acls && a.TokenAcl? && a.i == i && a.token in req.linked
    case AnyToken(i) => exists a ::
      a in acls && a.TokenAcl? && a.i == i && (a.token in req.carried || a.token in req.linked)
    case Free => chosen.None?
    case Plain => !req.ssl
    case Secure => req.ssl
  }

  predicate AllHold(acls: seq<Acl>, conditions: seq<Atom>, req: Request, chosen: Option<string>) {
    forall k :: 0 <= k < |conditions| ==> Holds(acls, conditions[k], req, chosen)
  }

  /** The proxy runs the rules in order. A redirect or a return ends the request;
      after the last rule the chosen backend takes it, or nobody. */
  function Run(acls: seq<Acl>, rules: seq<Rule>, req: Request, chosen: Option<string>): Answer {
    if rules == [] then
      if chosen.Some? then Backend(chosen.value) else NotFound
    else if !AllHold(acls, rules[0].conditions, req, chosen) then Run(acls, rules[1..], req, chosen)
    else
      match rules[0].action
      case Silence => Run(acls, rules[1..], req, chosen)
      case Redirect => ToHttps
      case SetQuery => Run(acls, rules[1..], req, chosen)
      case ReturnLink(secure) => SetCookie(secure)
      case Choose(backend) => Run(acls, rules[1..], req, Some(backend))
  }

  function Evaluate(config: Config, req: Request): Answer {
    if req.path == "/health" && !req.ssl then Health else Run(config.acls, config.rules, req, None)
  }

  // --------------------------------------------------------- making the rules

  function AclsOf(r: Route, i: nat): seq<Acl> {
    (if r.hosts != [] then [HostAcl(i, r.hosts)] + (if r.previewOnly then [] else [NamedAcl(r.hosts)]) else [])
    + (if r.WholeSite() then [] else [PathAcl(i, r.path)])
    + (if r.previewToken != "" then [TokenAcl(i, r.previewToken)] else [])
  }

  function AclsUpTo(routes: seq<Route>, n: nat): seq<Acl>
    requires n <= |routes|
  {
    if n == 0 then [] else AclsUpTo(routes, n - 1) + AclsOf(routes[n - 1], n - 1)
  }

  predicate NamedHosts(routes: seq<Route>) {
    exists j :: 0 <= j < |routes| && routes[j].hosts != [] && !routes[j].previewOnly
  }

  function Condition(r: Route, i: nat, named: bool): seq<Atom> {
    (if r.hosts != [] then [HostIs(i)] else [])
    + (if r.WholeSite() then [] else [PathIs(i)])
    + (if r.hosts == [] && named then [NotNamed] else [])
  }

  function SilenceRules(r: Route, i: nat, c: seq<Atom>): seq<Rule> {
    if r.previewToken != "" then [Rule(Silence, c + [Linked(i)])] else []
  }

  function RedirectRules(r: Route, i: nat, c: seq<Atom>): seq<Rule> {
    if r.tlsRedirect then [Rule(Redirect, c + (if r.previewOnly then [AnyToken(i)] else []) + [Plain])] else []
  }

  function LinkRules(r: Route, i: nat, c: seq<Atom>): seq<Rule> {
    if r.previewToken != "" then
      [Rule(SetQuery, c + [Linked(i), Free]),
       Rule(ReturnLink(false), c + [Linked(i), Free, Plain]),
       Rule(ReturnLink(true), c + [Linked(i), Free, Secure]),
       Rule(Choose(r.linkBackend), c + [Carried(i), Free])]
    else []
  }

  function ChooseRules(r: Route, c: seq<Atom>): seq<Rule> {
    if r.previewOnly then [] else [Rule(Choose(r.backend), [Free] + c)]
  }

  function RulesOf(r: Route, i: nat, named: bool): seq<Rule> {
    var c := Condition(r, i, named);
    SilenceRules(r, i, c) + RedirectRules(r, i, c) + LinkRules(r, i, c) + ChooseRules(r, c)
  }

  function RulesUpTo(routes: seq<Route>, n: nat, named: bool): seq<Rule>
    requires n <= |routes|
  {
    if n == 0 then [] else RulesUpTo(routes, n - 1, named) + RulesOf(routes[n - 1], n - 1, named)
  }

  function HostsUpTo(routes: seq<Route>, n: nat): seq<string>
    requires n <= |routes|
  {
    if n == 0 then [] else HostsUpTo(routes, n - 1) + routes[n - 1].hosts
  }

  predicate NoRepeats(hosts: seq<string>) {
    forall a, b :: 0 <= a < b < |hosts| ==> Lower(hosts[a]) != Lower(hosts[b])
  }

  /** No host is used twice, whatever its case. */
  predicate HostsDistinct(routes: seq<Route>) {
    NoRepeats(HostsUpTo(routes, |routes|))
  }

  lemma PrefixRepeats(hosts: seq<string>, more: seq<string>)
    requires !NoRepeats(hosts)
    ensures !NoRepeats(hosts + more)
  {
    var a, b :| 0 <= a < b < |hosts| && Lower(hosts[a]) == Lower(hosts[b]);
    assert (hosts + more)[a] == hosts[a] && (hosts + more)[b] == hosts[b];
  }

  lemma {:induction false} LaterRepeats(routes: seq<Route>, n: nat, m: nat)
    requires n <= m <= |routes| && !NoRepeats(HostsUpTo(routes, n))
    ensures !NoRepeats(HostsUpTo(routes, m))
    decreases m
  {
    if n < m {
      LaterRepeats(routes, n, m - 1);
      PrefixRepeats(HostsUpTo(routes, m - 1), routes[m - 1].hosts);
    }
  }

  /** Notes the hosts of one route; false when one was already used. */
  method NoteHosts(used: set<string>, r: Route, ghost before: seq<string>) returns (unused: bool, hosts: set<string>)
    requires used == (set h | h in before :: Lower(h)) && NoRepeats(before)
    ensures unused <==> NoRepeats(before + r.hosts)
    ensures unused ==> hosts == (set h | h in before + r.hosts :: Lower(h))
  {
    hosts := used;
    for k := 0 to |r.hosts|
      invariant hosts == (set h | h in before + r.hosts[..k] :: Lower(h)) && NoRepeats(before + r.hosts[..k])
    {
      ghost var seen := before + r.hosts[..k];
      assert before + r.hosts[..k + 1] == seen + [r.hosts[k]];
      var host := Lower(r.hosts[k]);
      if host in hosts {
        RepeatFound(seen, r.hosts[k]);
        PrefixRepeats(seen + [r.hosts[k]], r.hosts[k + 1..]);
        assert before + r.hosts == seen + [r.hosts[k]] + r.hosts[k + 1..];
        return false, hosts;
      }
      NoteOne(seen, r.hosts[k]);
      hosts := hosts + {host};
    }
    assert r.hosts[..|r.hosts|] == r.hosts;
    return true, hosts;
  }

  lemma RepeatFound(seen: seq<string>, host: string)
    requires Lower(host) in set h | h in seen :: Lower(h)
    ensures !NoRepeats(seen + [host])
  {
    var a :| 0 <= a < |seen| && Lower(seen[a]) == Lower(host);
    var all := seen + [host];
    assert all[a] == seen[a] && all[|seen|] == host;
  }

  lemma NoteOne(seen: seq<string>, host: string)
    requires NoRepeats(seen) && Lower(host) !in set h | h in seen :: Lower(h)
    ensures NoRepeats(seen + [host])
    ensures (set h | h in seen + [host] :: Lower(h)) == (set h | h in seen :: Lower(h)) + {Lower(host)}
  {
    var all := seen + [host];
    forall a, b | 0 <= a < b < |all| ensures Lower(all[a]) != Lower(all[b]) {
      assert all[a] in seen;
    }
    assert forall h :: h in all <==> h in seen || h == host;
  }

  function Rendered(routes: seq<Route>): Config {
    Config(AclsUpTo(routes, |routes|), RulesUpTo(routes, |routes|, NamedHosts(routes)))
  }

  /** Makes the frontend of sorted routes, or fails when a host is used twice. */
  method RenderFrontend(routes: seq<Route>) returns (r: Option<Config>)
    ensures r.Some? <==> HostsDistinct(routes)
    ensures r.Some? ==> r.value == Rendered(routes)
  {
    hide AclsOf, RulesOf, NoRepeats, Lower;
    assert NoRepeats(HostsUpTo(routes, 0)) by { NothingRepeats(); }
    var used: set<string> := {};
    for i := 0 to |routes|
      invariant NoRepeats(HostsUpTo(routes, i))
      invariant used == (set h | h in HostsUpTo(routes, i) :: Lower(h))
    {
      var unused;
      unused, used := NoteHosts(used, routes[i], HostsUpTo(routes, i));
      if !unused {
        LaterRepeats(routes, i + 1, |routes|);
        return None;
      }
    }
    var acls, named := RenderAcls(routes);
    var rules := [];
    for i := 0 to |routes|
      invariant rules == RulesUpTo(routes, i, named)
    {
      rules := RenderRules(rules, routes[i], i, named);
    }
    return Some(Config(acls, rules));
  }

  lemma NothingRepeats()
    ensures NoRepeats([])
  {
  }

  /** The definitions of all routes, and whether any names a host. */
  method RenderAcls(routes: seq<Route>) returns (acls: seq<Acl>, named: bool)
    ensures acls == AclsUpTo(routes, |routes|) && named == NamedHosts(routes)
  {
    hide AclsOf;
    acls, named := [], false;
    for i := 0 to |routes|
      invariant acls == AclsUpTo(routes, i)
      invariant named <==> exists j :: 0 <= j < i && routes[j].hosts != [] && !routes[j].previewOnly
    {
      var own := RouteAcls(routes[i], i);
      acls := acls + own;
      if routes[i].hosts != [] && !routes[i].previewOnly {
        named := true;
      }
    }
  }

  method RouteAcls(route: Route, i: nat) returns (acls: seq<Acl>)
    ensures acls == AclsOf(route, i)
  {
    acls := [];
    if route.hosts != [] {
      acls := acls + [HostAcl(i, route.hosts)];
      if !route.previewOnly {
        acls := acls + [NamedAcl(route.hosts)];
      }
    }
    if route.path != "" && route.path != "/" {
      acls := acls + [PathAcl(i, route.path)];
    }
    if route.previewToken != "" {
      acls := acls + [TokenAcl(i, route.previewToken)];
    }
  }

  method RenderRules(rules: seq<Rule>, route: Route, i: nat, named: bool) returns (r: seq<Rule>)
    ensures r == rules + RulesOf(route, i, named)
  {
    hide Condition;
    var condition := RouteCondition(route, i, named);
    r := rules;
    if route.previewToken != "" {
      r := r + [Rule(Silence, condition + [Linked(i)])];
    }
    assert r == rules + SilenceRules(route, i, condition);
    if route.tlsRedirect {
      var redirect := condition;
      if route.previewOnly {
        redirect := redirect + [AnyToken(i)];
      }
      assert redirect == condition + (if route.previewOnly then [AnyToken(i)] else []);
      r := r + [Rule(Redirect, redirect + [Plain])];
    }
    assert r == rules + SilenceRules(route, i, condition) + RedirectRules(route, i, condition);
    if route.previewToken != "" {
      r := r + [Rule(SetQuery, condition + [Linked(i), Free]),
                Rule(ReturnLink(false), condition + [Linked(i), Free, Plain]),
                Rule(ReturnLink(true), condition + [Linked(i), Free, Secure]),
                Rule(Choose(route.linkBackend), condition + [Carried(i), Free])];
    }
    if !route.previewOnly {
      r := r + [Rule(Choose(route.backend), [Free] + condition)];
    }
    assert rules + (SilenceRules(route, i, condition) + RedirectRules(route, i, condition) +
      LinkRules(route, i, condition) + ChooseRules(route, condition))
      == rules + SilenceRules(route, i, condition) + RedirectRules(route, i, condition) +
        LinkRules(route, i, condition) + ChooseRules(route, condition);
  }

  method RouteCondition(route: Route, i: nat, named: bool) returns (r: seq<Atom>)
    ensures r == Condition(route, i, named)
  {
    r := [];
    if route.hosts != [] {
      r := r + [HostIs(i)];
    }
    if route.path != "" && route.path != "/" {
      r := r + [PathIs(i)];
    }
    if route.hosts == [] && named {
      r := r + [NotNamed];
    }
  }
}
