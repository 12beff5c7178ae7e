/** Which backend a request ends up at, said without the rule list, and the proof
    that the frontend's rules say the same. */
module Routing {
  import opened Rollout
  import opened Text
  import opened Frontend

  predicate PathMatches(r: Route, req: Request) {
    r.WholeSite() || r.path <= req.path
  }

  /** Some route, not counting preview hosts, has the request's host. */
  predicate Named(routes: seq<Route>, req: Request) {
    exists j :: 0 <= j < |routes| && !routes[j].previewOnly && HostIn(req.host, routes[j].hosts)
  }

  predicate Matches(routes: seq<Route>, r: Route, req: Request) {
    (if r.hosts != [] then HostIn(req.host, r.hosts) else !Named(routes, req)) && PathMatches(r, req)
  }

  predicate IsLinked(r: Route, req: Request) {
    r.previewToken != "" && r.previewToken in req.linked
  }

  predicate IsCarried(r: Route, req: Request) {
    r.previewToken != "" && r.previewToken in req.carried
  }

  datatype Pass = Ends(answer: Answer) | Goes(chosen: Option<string>)

  /** What one route does to a request. */
  function PassOf(routes: seq<Route>, r: Route, req: Request, chosen: Option<string>): Pass {
    if !Matches(routes, r, req) then Goes(chosen)
    else if r.tlsRedirect && !req.ssl && (r.previewOnly ==> IsCarried(r, req) || IsLinked(r, req)) then Ends(ToHttps)
    else if chosen.None? && IsLinked(r, req) then Ends(SetCookie(req.ssl))
    else
      var next := if chosen.None? && IsCarried(r, req) then Some(r.linkBackend) else chosen;
      Goes(if next.None? && !r.previewOnly then Some(r.backend) else next)
  }

  /** The routes from `i` on, one after the other. */
  function Walk(routes: seq<Route>, i: nat, req: Request, chosen: Option<string>): Answer
    requires i <= |routes|
    decreases |routes| - i
  {
    if i == |routes| then
      if chosen.Some? then Backend(chosen.value) else NotFound
    else
      var pass := PassOf(routes, routes[i], req, chosen);
      if pass.Ends? then pass.answer else Walk(routes, i + 1, req, pass.chosen)
  }

  // --------------------------------------------- the rules do what routes say

  predicate IsAcl(r: Route, i: nat, a: Acl) {
    match a
    case HostAcl(j, hosts) => j == i && hosts == r.hosts && r.hosts != []
    case NamedAcl(hosts) => hosts == r.hosts && r.hosts != [] && !r.previewOnly
    case PathAcl(j, prefix) => j == i && prefix == r.path && !r.WholeSite()
    case TokenAcl(j, token) => j == i && token == r.previewToken && token != ""
  }

  lemma AclShape(r: Route, i: nat, a: Acl)
    ensures a in AclsOf(r, i) <==> IsAcl(r, i, a)
  {
  }

  lemma {:induction false} AclMember(routes: seq<Route>, n: nat, a: Acl)
    requires n <= |routes|
    ensures a in AclsUpTo(routes, n) <==> exists j :: 0 <= j < n && IsAcl(routes[j], j, a)
  {
    hide AclsOf, IsAcl;
    if n > 0 {
      AclMember(routes, n - 1, a);
      AclShape(routes[n - 1], n - 1, a);
    }
  }

  lemma HostAtom(routes: seq<Route>, i: nat, req: Request, chosen: Option<string>)
    requires i < |routes| && routes[i].hosts != []
    ensures Holds(AclsUpTo(routes, |routes|), HostIs(i), req, chosen) <==> HostIn(req.host, routes[i].hosts)
  {
    hide AclsUpTo, HostIn;
    var own := HostAcl(i, routes[i].hosts);
    AclMember(routes, |routes|, own);
    assert IsAcl(routes[i], i, own);
    forall a | a in AclsUpTo(routes, |routes|) && a.HostAcl? && a.i == i ensures a == own {
      AclMember(routes, |routes|, a);
    }
  }

  lemma NamedAtom(routes: seq<Route>, req: Request, chosen: Option<string>)
    ensures Holds(AclsUpTo(routes, |routes|), NotNamed, req, chosen) <==> !Named(routes, req)
  {
    hide AclsUpTo;
    var acls := AclsUpTo(routes, |routes|);
    if Named(routes, req) {
      var j :| 0 <= j < |routes| && !routes[j].previewOnly && HostIn(req.host, routes[j].hosts);
      AclMember(routes, |routes|, NamedAcl(routes[j].hosts));
      assert IsAcl(routes[j], j, NamedAcl(routes[j].hosts));
    }
    forall a | a in acls && a.NamedAcl? && HostIn(req.host, a.hosts) ensures Named(routes, req) {
      AclMember(routes, |routes|, a);
    }
  }

  lemma PathAtom(routes: seq<Route>, i: nat, req: Request, chosen: Option<string>)
    requires i < |routes| && !routes[i].WholeSite()
    ensures Holds(AclsUpTo(routes, |routes|), PathIs(i), req, chosen) <==> routes[i].path <= req.path
  {
    hide AclsUpTo;
    var own := PathAcl(i, routes[i].path);
    AclMember(routes, |routes|, own);
    assert IsAcl(routes[i], i, own);
    forall a | a in AclsUpTo(routes, |routes|) && a.PathAcl? && a.i == i ensures a == own {
      AclMember(routes, |routes|, a);
    }
  }

  lemma TokenAtoms(routes: seq<Route>, i: nat, req: Request, chosen: Option<string>)
    requires i < |routes|
    ensures var acls := AclsUpTo(routes, |routes|);
      && (Holds(acls, Carried(i), req, chosen) <==> IsCarried(routes[i], req))
      && (Holds(acls, Linked(i), req, chosen) <==> IsLinked(routes[i], req))
      && (Holds(acls, AnyToken(i), req, chosen) <==> IsCarried(routes[i], req) || IsLinked(routes[i], req))
  {
    hide AclsUpTo;
    var own := TokenAcl(i, routes[i].previewToken);
    AclMember(routes, |routes|, own);
    assert routes[i].previewToken != "" ==> IsAcl(routes[i], i, own);
    forall a | a in AclsUpTo(routes, |routes|) && a.TokenAcl? && a.i == i
      ensures a == own && routes[i].previewToken != ""
    {
      AclMember(routes, |routes|, a);
    }
  }

  lemma HoldTogether(acls: seq<Acl>, a: seq<Atom>, b: seq<Atom>, req: Request, chosen: Option<string>)
    ensures AllHold(acls, a + b, req, chosen) <==> AllHold(acls, a, req, chosen) && AllHold(acls, b, req, chosen)
  {
    hide Holds;
    assert forall k :: 0 <= k < |a| ==> (a + b)[k] == a[k];
    assert forall k :: 0 <= k < |b| ==> (a + b)[|a| + k] == b[k];
    forall k | 0 <= k < |a + b| ensures (a + b)[k] == if k < |a| then a[k] else b[k - |a|] {
    }
  }

  lemma ConditionMeans(routes: seq<Route>, i: nat, req: Request, chosen: Option<string>)
    requires i < |routes|
    ensures AllHold(AclsUpTo(routes, |routes|), Condition(routes[i], i, NamedHosts(routes)), req, chosen) <==>
      Matches(routes, routes[i], req)
  {
    hide AclsUpTo, Holds;
    var r, acls := routes[i], AclsUpTo(routes, |routes|);
    var a := if r.hosts != [] then [HostIs(i)] else [];
    var b := if r.WholeSite() then [] else [PathIs(i)];
    var c := if r.hosts == [] && NamedHosts(routes) then [NotNamed] else [];
    HoldTogether(acls, a + b, c, req, chosen);
    HoldTogether(acls, a, b, req, chosen);
    if r.hosts != [] { HostAtom(routes, i, req, chosen); }
    if !r.WholeSite() { PathAtom(routes, i, req, chosen); }
    NamedAtom(routes, req, chosen);
    Singles(acls, HostIs(i), req, chosen);
    Singles(acls, PathIs(i), req, chosen);
    Singles(acls, NotNamed, req, chosen);
  }

  lemma Singles(acls: seq<Acl>, atom: Atom, req: Request, chosen: Option<string>)
    ensures AllHold(acls, [atom], req, chosen) <==> Holds(acls, atom, req, chosen)
    ensures AllHold(acls, [], req, chosen)
  {
    hide Holds;
    assert [atom][0] == atom;
  }

  /** One rule in front of others. */
  lemma RunOne(acls: seq<Acl>, rule: Rule, rest: seq<Rule>, req: Request, chosen: Option<string>)
    ensures Run(acls, [rule] + rest, req, chosen) ==
      if !AllHold(acls, rule.conditions, req, chosen) then Run(acls, rest, req, chosen)
      else if rule.action.Redirect? then ToHttps
      else if rule.action.ReturnLink? then SetCookie(rule.action.secure)
      else Run(acls, rest, req, if rule.action.Choose? then Some(rule.action.backend) else chosen)
  {
    assert ([rule] + rest)[1..] == rest;
  }

  /** A condition with more atoms behind it. */
  lemma WithAtoms(routes: seq<Route>, i: nat, more: seq<Atom>, req: Request, chosen: Option<string>)
    requires i < |routes|
    ensures var acls := AclsUpTo(routes, |routes|); var c := Condition(routes[i], i, NamedHosts(routes));
      && (AllHold(acls, c + more, req, chosen) <==> Matches(routes, routes[i], req) && AllHold(acls, more, req, chosen))
      && (AllHold(acls, more + c, req, chosen) <==> Matches(routes, routes[i], req) && AllHold(acls, more, req, chosen))
  {
    hide AclsUpTo, Holds, Condition, AllHold;
    var acls, c := AclsUpTo(routes, |routes|), Condition(routes[i], i, NamedHosts(routes));
    ConditionMeans(routes, i, req, chosen);
    HoldTogether(acls, c, more, req, chosen);
    HoldTogether(acls, more, c, req, chosen);
  }

  lemma RunNone(acls: seq<Acl>, rest: seq<Rule>, req: Request, chosen: Option<string>)
    ensures Run(acls, [] + rest, req, chosen) == Run(acls, rest, req, chosen)
  {
    assert [] + rest == rest;
  }

  lemma RunChoose(routes: seq<Route>, i: nat, rest: seq<Rule>, req: Request, chosen: Option<string>)
    requires i < |routes|
    ensures var r := routes[i]; var acls := AclsUpTo(routes, |routes|);
      Run(acls, ChooseRules(r, Condition(r, i, NamedHosts(routes))) + rest, req, chosen)
        == Run(acls, rest, req, if Matches(routes, r, req) && chosen.None? && !r.previewOnly then Some(r.backend)
          else chosen)
  {
    hide AclsUpTo, Condition, AllHold, Run, Matches;
    var r, acls := routes[i], AclsUpTo(routes, |routes|);
    RunNone(acls, rest, req, chosen);
    if !r.previewOnly {
      RunOne(acls, Rule(Choose(r.backend), [Free] + Condition(r, i, NamedHosts(routes))), rest, req, chosen);
      WithAtoms(routes, i, [Free], req, chosen);
      Singles(acls, Free, req, chosen);
    }
  }

  lemma RunSilence(routes: seq<Route>, i: nat, rest: seq<Rule>, req: Request, chosen: Option<string>)
    requires i < |routes|
    ensures var r := routes[i]; var acls := AclsUpTo(routes, |routes|);
      Run(acls, SilenceRules(r, i, Condition(r, i, NamedHosts(routes))) + rest, req, chosen) ==
        Run(acls, rest, req, chosen)
  {
    hide AclsUpTo, Condition, AllHold, Run;
    var r, acls := routes[i], AclsUpTo(routes, |routes|);
    RunNone(acls, rest, req, chosen);
    RunOne(acls, Rule(Silence, Condition(r, i, NamedHosts(routes)) + [Linked(i)]), rest, req, chosen);
  }

  lemma RunLink(routes: seq<Route>, i: nat, rest: seq<Rule>, req: Request, chosen: Option<string>)
    requires i < |routes|
    ensures var r := routes[i]; var acls := AclsUpTo(routes, |routes|); var c := Condition(r, i, NamedHosts(routes));
      Run(acls, LinkRules(r, i, c) + rest, req, chosen)
        == if Matches(routes, r, req) && chosen.None? && IsLinked(r, req) then SetCookie(req.ssl)
           else Run(acls, rest, req, if Matches(routes, r, req) && chosen.None? &&
             IsCarried(r, req) then Some(r.linkBackend) else chosen)
  {
    hide AclsUpTo, Condition, Run, Matches, AllHold;
    var r, acls, c := routes[i], AclsUpTo(routes, |routes|), Condition(routes[i], i, NamedHosts(routes));
    RunNone(acls, rest, req, chosen);
    var query := Rule(SetQuery, c + [Linked(i), Free]);
    var plain := Rule(ReturnLink(false), c + [Linked(i), Free, Plain]);
    var secure := Rule(ReturnLink(true), c + [Linked(i), Free, Secure]);
    var cookie := Rule(Choose(r.linkBackend), c + [Carried(i), Free]);
    assert [query, plain, secure, cookie] + rest == [query] + ([plain] + ([secure] + ([cookie] + rest)));
    RunOne(acls, query, [plain] + ([secure] + ([cookie] + rest)), req, chosen);
    RunOne(acls, plain, [secure] + ([cookie] + rest), req, chosen);
    RunOne(acls, secure, [cookie] + rest, req, chosen);
    RunOne(acls, cookie, rest, req, chosen);
    WithAtoms(routes, i, [Linked(i), Free, Plain], req, chosen);
    WithAtoms(routes, i, [Linked(i), Free, Secure], req, chosen);
    WithAtoms(routes, i, [Carried(i), Free], req, chosen);
    TokenConditions(routes, i, req, chosen);
  }

  lemma TokenConditions(routes: seq<Route>, i: nat, req: Request, chosen: Option<string>)
    requires i < |routes|
    ensures var acls := AclsUpTo(routes, |routes|); var r := routes[i];
      && (AllHold(acls, [Linked(i), Free, Plain], req, chosen) <==> IsLinked(r, req) && chosen.None? && !req.ssl)
      && (AllHold(acls, [Linked(i), Free, Secure], req, chosen) <==> IsLinked(r, req) && chosen.None? && req.ssl)
      && (AllHold(acls, [Carried(i), Free], req, chosen) <==> IsCarried(r, req) && chosen.None?)
      && (AllHold(acls, [AnyToken(i), Plain], req, chosen) <==> (IsCarried(r, req) || IsLinked(r, req)) && !req.ssl)
  {
    hide AclsUpTo, IsLinked, IsCarried, AllHold;
    var acls := AclsUpTo(routes, |routes|);
    TokenAtoms(routes, i, req, chosen);
    assert [Linked(i), Free, Plain] == [Linked(i)] + ([Free] + [Plain]);
    assert [Linked(i), Free, Secure] == [Linked(i)] + ([Free] + [Secure]);
    assert [Carried(i), Free] == [Carried(i)] + [Free];
    assert [AnyToken(i), Plain] == [AnyToken(i)] + [Plain];
    HoldTogether(acls, [Linked(i)], [Free] + [Plain], req, chosen);
    HoldTogether(acls, [Linked(i)], [Free] + [Secure], req, chosen);
    HoldTogether(acls, [Free], [Plain], req, chosen);
    HoldTogether(acls, [Free], [Secure], req, chosen);
    HoldTogether(acls, [Carried(i)], [Free], req, chosen);
    HoldTogether(acls, [AnyToken(i)], [Plain], req, chosen);
    Singles(acls, Linked(i), req, chosen);
    Singles(acls, Carried(i), req, chosen);
    Singles(acls, AnyToken(i), req, chosen);
    Singles(acls, Free, req, chosen);
    Singles(acls, Plain, req, chosen);
    Singles(acls, Secure, req, chosen);
  }

  lemma RunRedirect(routes: seq<Route>, i: nat, rest: seq<Rule>, req: Request, chosen: Option<string>)
    requires i < |routes|
    ensures var r := routes[i]; var acls := AclsUpTo(routes, |routes|); var c := Condition(r, i, NamedHosts(routes));
      Run(acls, RedirectRules(r, i, c) + rest, req, chosen)
        == if r.tlsRedirect && Matches(routes, r, req) && !req.ssl &&
          (r.previewOnly ==> IsCarried(r, req) || IsLinked(r, req)) then ToHttps
           else Run(acls, rest, req, chosen)
  {
    hide AclsUpTo, Condition, Run, Matches, AllHold;
    var r, acls, c := routes[i], AclsUpTo(routes, |routes|), Condition(routes[i], i, NamedHosts(routes));
    RunNone(acls, rest, req, chosen);
    var more := (if r.previewOnly then [AnyToken(i)] else []) + [Plain];
    assert c + (if r.previewOnly then [AnyToken(i)] else []) + [Plain] == c + more;
    RunOne(acls, Rule(Redirect, c + more), rest, req, chosen);
    WithAtoms(routes, i, more, req, chosen);
    TokenConditions(routes, i, req, chosen);
    Singles(acls, Plain, req, chosen);
    assert more == if r.previewOnly then [AnyToken(i), Plain] else [Plain];
  }

  /** The rules of one route do to a request what the route does. */
  lemma RunRoute(routes: seq<Route>, i: nat, rest: seq<Rule>, req: Request, chosen: Option<string>)
    requires i < |routes|
    ensures Run(AclsUpTo(routes, |routes|), RulesOf(routes[i], i, NamedHosts(routes)) + rest, req, chosen)
         == var pass := PassOf(routes, routes[i], req, chosen);
            if pass.Ends? then pass.answer else Run(AclsUpTo(routes, |routes|), rest, req, pass.chosen)
  {
    hide AclsUpTo, Condition, Run, Matches, AllHold, SilenceRules, RedirectRules, LinkRules, ChooseRules;
    hide IsLinked, IsCarried;
    var r, c := routes[i], Condition(routes[i], i, NamedHosts(routes));
    var silence, redirect, link, choose := SilenceRules(r, i, c), RedirectRules(r, i, c), LinkRules(r, i, c),
      ChooseRules(r, c);
    assert silence + redirect + link + choose + rest == silence + (redirect + (link + (choose + rest)));
    RunSilence(routes, i, redirect + (link + (choose + rest)), req, chosen);
    RunRedirect(routes, i, link + (choose + rest), req, chosen);
    RunLink(routes, i, choose + rest, req, chosen);
    RunChoose(routes, i, rest, req, chosen);
    RunChoose(routes, i, rest, req, if Matches(routes, r, req) && chosen.None? &&
      IsCarried(r, req) then Some(r.linkBackend) else chosen);
  }

  function RulesFrom(routes: seq<Route>, i: nat): seq<Rule>
    requires i <= |routes|
    decreases |routes| - i
  {
    if i == |routes| then [] else RulesOf(routes[i], i, NamedHosts(routes)) + RulesFrom(routes, i + 1)
  }

  lemma {:induction false} AllRules(routes: seq<Route>, i: nat)
    requires i <= |routes|
    ensures RulesUpTo(routes, i, NamedHosts(routes)) + RulesFrom(routes, i) ==
      RulesUpTo(routes, |routes|, NamedHosts(routes))
    decreases |routes| - i
  {
    hide RulesOf;
    if i < |routes| {
      AllRules(routes, i + 1);
    }
  }

  lemma {:induction false} RunIsWalk(routes: seq<Route>, i: nat, req: Request, chosen: Option<string>)
    requires i <= |routes|
    ensures Run(AclsUpTo(routes, |routes|), RulesFrom(routes, i), req, chosen) == Walk(routes, i, req, chosen)
    decreases |routes| - i
  {
    hide AclsUpTo, RulesOf, PassOf;
    if i < |routes| {
      RunRoute(routes, i, RulesFrom(routes, i + 1), req, chosen);
      var pass := PassOf(routes, routes[i], req, chosen);
      if pass.Goes? {
        RunIsWalk(routes, i + 1, req, pass.chosen);
      }
    }
  }

  /** The rendered frontend answers every request as its routes say, one after the
      other. */
  lemma FrontendWalks(routes: seq<Route>, req: Request)
    ensures Evaluate(Rendered(routes), req)
         == if req.path == "/health" && !req.ssl then Health else Walk(routes, 0, req, None)
  {
    hide AclsUpTo, Run, Walk;
    AllRules(routes, 0);
    assert RulesUpTo(routes, 0, NamedHosts(routes)) + RulesFrom(routes, 0) == RulesFrom(routes, 0);
    RunIsWalk(routes, 0, req, None);
  }
}
