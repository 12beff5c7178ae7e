/** What else the frontend does to a request that carries a preview token in its
    URL: it is not logged, and the answer to it takes the token out of the URL. */
module LinkRules {
  import opened Rollout
  import opened Text
  import opened Frontend
  import opened Routing
  import opened RouteOrder
  import opened SavedRoutes

  /** The actions that a request meets, up to the one that ends it. */
  function Fired(acls: seq<Acl>, rules: seq<Rule>, req: Request, chosen: Option<string>): seq<Action> {
    if rules == [] then []
    else if !AllHold(acls, rules[0].conditions, req, chosen) then Fired(acls, rules[1..], req, chosen)
    else
      var action := rules[0].action;
      if action.Redirect? || action.ReturnLink? then [action]
      else [action] + Fired(acls, rules[1..], req, if action.Choose? then Some(action.backend) else chosen)
  }

  lemma FiredOne(acls: seq<Acl>, rule: Rule, rest: seq<Rule>, req: Request, chosen: Option<string>)
    ensures Fired(acls, [rule] + rest, req, chosen) ==
      if !AllHold(acls, rule.conditions, req, chosen) then Fired(acls, rest, req, chosen)
      else if rule.action.Redirect? || rule.action.ReturnLink? then [rule.action]
      else [rule.action] + Fired(acls, rest, req, if rule.action.Choose? then Some(rule.action.backend) else chosen)
  {
    assert ([rule] + rest)[1..] == rest;
  }

  lemma FiredNone(acls: seq<Acl>, rest: seq<Rule>, req: Request, chosen: Option<string>)
    ensures Fired(acls, [] + rest, req, chosen) == Fired(acls, rest, req, chosen)
  {
    assert [] + rest == rest;
  }

  /** The log is silenced before anything else is done to a request with the token. */
  lemma SilencedFirst(routes: seq<Route>, i: nat, rest: seq<Rule>, req: Request, chosen: Option<string>)
    requires i < |routes|
    ensures var r := routes[i]; var acls := AclsUpTo(routes, |routes|); var c := Condition(r, i, NamedHosts(routes));
      Fired(acls, SilenceRules(r, i, c) + rest, req, chosen) ==
        (if Matches(routes, r, req) && IsLinked(r, req) then [Silence] else []) + Fired(acls, rest, req, chosen)
  {
    hide AclsUpTo, Condition, AllHold, Fired, Matches;
    var r, acls := routes[i], AclsUpTo(routes, |routes|);
    FiredNone(acls, rest, req, chosen);
    FiredOne(acls, Rule(Silence, Condition(r, i, NamedHosts(routes)) + [Linked(i)]), rest, req, chosen);
    WithAtoms(routes, i, [Linked(i)], req, chosen);
    Singles(acls, Linked(i), req, chosen);
    TokenAtoms(routes, i, req, chosen);
  }

  lemma Redirected(routes: seq<Route>, i: nat, rest: seq<Rule>, req: Request, chosen: Option<string>)
    requires i < |routes|
    ensures var r := routes[i]; var acls := AclsUpTo(routes, |routes|); var c := Condition(r, i, NamedHosts(routes));
      Fired(acls, RedirectRules(r, i, c) + rest, req, chosen) ==
        if r.tlsRedirect && Matches(routes, r, req) && !req.ssl &&
          (r.previewOnly ==> IsCarried(r, req) || IsLinked(r, req)) then [Redirect]
        else Fired(acls, rest, req, chosen)
  {
    hide AclsUpTo, Condition, Fired, Matches, AllHold;
    var r, acls, c := routes[i], AclsUpTo(routes, |routes|), Condition(routes[i], i, NamedHosts(routes));
    FiredNone(acls, rest, req, chosen);
    var more := (if r.previewOnly then [AnyToken(i)] else []) + [Plain];
    assert c + (if r.previewOnly then [AnyToken(i)] else []) + [Plain] == c + more;
    FiredOne(acls, Rule(Redirect, c + more), rest, req, chosen);
    WithAtoms(routes, i, more, req, chosen);
    TokenConditions(routes, i, req, chosen);
    Singles(acls, Plain, req, chosen);
    assert more == if r.previewOnly then [AnyToken(i), Plain] else [Plain];
  }

  /** The answer to the link comes with a URL from which the token was taken. */
  lemma Answered(routes: seq<Route>, i: nat, rest: seq<Rule>, req: Request, chosen: Option<string>)
    requires i < |routes|
    ensures var r := routes[i]; var acls := AclsUpTo(routes, |routes|); var c := Condition(r, i, NamedHosts(routes));
      Matches(routes, r, req) && chosen.None? && IsLinked(r, req) ==>
        Fired(acls, LinkRules(r, i, c) + rest, req, chosen) == [SetQuery, ReturnLink(req.ssl)]
  {
    hide AclsUpTo, Condition, Fired, Matches, AllHold;
    var r, acls, c := routes[i], AclsUpTo(routes, |routes|), Condition(routes[i], i, NamedHosts(routes));
    if Matches(routes, r, req) && chosen.None? && IsLinked(r, req) {
      var query := Rule(SetQuery, c + [Linked(i), Free]);
      var plain := Rule(ReturnLink(false), c + [Linked(i), Free, Plain]);
      var secure := Rule(ReturnLink(true), c + [Linked(i), Free, Secure]);
      var cookie := Rule(Choose(r.linkBackend), c + [Carried(i), Free]);
      assert [query, plain, secure, cookie] + rest == [query] + ([plain] + ([secure] + ([cookie] + rest)));
      FiredOne(acls, query, [plain] + ([secure] + ([cookie] + rest)), req, chosen);
      FiredOne(acls, plain, [secure] + ([cookie] + rest), req, chosen);
      FiredOne(acls, secure, [cookie] + rest, req, chosen);
      WithAtoms(routes, i, [Linked(i), Free], req, chosen);
      WithAtoms(routes, i, [Linked(i), Free, Plain], req, chosen);
      WithAtoms(routes, i, [Linked(i), Free, Secure], req, chosen);
      TokenConditions(routes, i, req, chosen);
      FreeLinked(routes, i, req, chosen);
    }
  }

  lemma FreeLinked(routes: seq<Route>, i: nat, req: Request, chosen: Option<string>)
    requires i < |routes|
    ensures AllHold(AclsUpTo(routes, |routes|), [Linked(i), Free], req, chosen) <==>
      IsLinked(routes[i], req) && chosen.None?
  {
    hide AclsUpTo, IsLinked, AllHold;
    var acls := AclsUpTo(routes, |routes|);
    TokenAtoms(routes, i, req, chosen);
    assert [Linked(i), Free] == [Linked(i)] + [Free];
    HoldTogether(acls, [Linked(i)], [Free], req, chosen);
    Singles(acls, Linked(i), req, chosen);
    Singles(acls, Free, req, chosen);
  }

  /** A route that a request does not match does nothing to it. */
  lemma NothingFires(routes: seq<Route>, i: nat, rest: seq<Rule>, req: Request, chosen: Option<string>)
    requires i < |routes| && !Matches(routes, routes[i], req)
    ensures Fired(AclsUpTo(routes, |routes|), RulesOf(routes[i], i, NamedHosts(routes)) + rest, req, chosen)
         == Fired(AclsUpTo(routes, |routes|), rest, req, chosen)
  {
    hide AclsUpTo, Condition, Fired, Matches, AllHold;
    var r, acls, c := routes[i], AclsUpTo(routes, |routes|), Condition(routes[i], i, NamedHosts(routes));
    forall rule, more: seq<Rule> | rule in RulesOf(r, i, NamedHosts(routes))
      ensures Fired(acls, [rule] + more, req, chosen) == Fired(acls, more, req, chosen)
    {
      FiredOne(acls, rule, more, req, chosen);
      NeverHolds(routes, i, rule, req, chosen);
    }
    FiredSkips(acls, RulesOf(r, i, NamedHosts(routes)), rest, req, chosen);
  }

  lemma {:induction false} FiredSkips(acls: seq<Acl>, rules: seq<Rule>, rest: seq<Rule>, req: Request,
                                      chosen: Option<string>)
    requires forall rule, more: seq<Rule> :: rule in rules ==>
      Fired(acls, [rule] + more, req, chosen) == Fired(acls, more, req, chosen)
    ensures Fired(acls, rules + rest, req, chosen) == Fired(acls, rest, req, chosen)
  {
    hide Fired;
    if rules == [] {
      FiredNone(acls, rest, req, chosen);
    } else {
      assert rules + rest == [rules[0]] + (rules[1..] + rest);
      FiredSkips(acls, rules[1..], rest, req, chosen);
    }
  }

  lemma NeverHolds(routes: seq<Route>, i: nat, rule: Rule, req: Request, chosen: Option<string>)
    requires i < |routes| && !Matches(routes, routes[i], req) && rule in RulesOf(routes[i], i, NamedHosts(routes))
    ensures !AllHold(AclsUpTo(routes, |routes|), rule.conditions, req, chosen)
  {
    hide AclsUpTo, Condition, Matches, AllHold;
    var r, c := routes[i], Condition(routes[i], i, NamedHosts(routes));
    if rule.conditions == [Free] + c {
      WithAtoms(routes, i, [Free], req, chosen);
    } else {
      var more := Behind(r, i, c, rule);
      WithAtoms(routes, i, more, req, chosen);
    }
  }

  /** All but the last rule of a route have their own conditions behind the route's. */
  lemma Behind(r: Route, i: nat, c: seq<Atom>, rule: Rule) returns (more: seq<Atom>)
    requires rule in SilenceRules(r, i, c) + RedirectRules(r, i, c) + LinkRules(r, i, c) + ChooseRules(r, c)
    requires rule.conditions != [Free] + c
    ensures rule.conditions == c + more
  {
    if rule in RedirectRules(r, i, c) {
      more := (if r.previewOnly then [AnyToken(i)] else []) + [Plain];
      assert c + (if r.previewOnly then [AnyToken(i)] else []) + [Plain] == c + more;
    } else {
      more :| rule.conditions == c + more;
    }
  }

  /** Of the routes from `i` on, `k` is the first that the request matches, and the
      request carries its token in the URL. */
  lemma {:induction false} LinkFires(routes: seq<Route>, i: nat, k: nat, req: Request)
    requires i <= k < |routes| && (forall j :: i <= j < k ==> !Matches(routes, routes[j], req))
    requires Matches(routes, routes[k], req) && IsLinked(routes[k], req)
    ensures Fired(AclsUpTo(routes, |routes|), RulesFrom(routes, i), req, None) ==
      [Silence] + if routes[k].tlsRedirect && !req.ssl then [Redirect] else [SetQuery, ReturnLink(req.ssl)]
    decreases k - i
  {
    hide AclsUpTo, Condition, Fired, Matches, AllHold, SilenceRules, RedirectRules, ChooseRules, LinkRules;
    hide IsLinked, IsCarried;
    if i < k {
      NothingFires(routes, i, RulesFrom(routes, i + 1), req, None);
      LinkFires(routes, i + 1, k, req);
    } else {
      var r, c, rest := routes[k], Condition(routes[k], k, NamedHosts(routes)), RulesFrom(routes, k + 1);
      var silence, redirect, link, choose := SilenceRules(r, k, c), RedirectRules(r, k, c), LinkRules(r, k, c),
        ChooseRules(r, c);
      assert silence + redirect + link + choose + rest == silence + (redirect + (link + (choose + rest)));
      SilencedFirst(routes, k, redirect + (link + (choose + rest)), req, None);
      Redirected(routes, k, link + (choose + rest), req, None);
      Answered(routes, k, choose + rest, req, None);
    }
  }

  /** A request to a host of a service that carries its token in the URL is never
      logged. It is sent on to https first where the service asks for that, and
      otherwise answered with a URL without the token. */
  lemma LinkIsNotLogged(routes: seq<Route>, saved: seq<SavedRoute>, s: SavedRoute, req: Request)
    requires MadeOf(routes, saved) && s in saved && HostIn(req.host, s.hosts)
    requires OnPath(s.path, req) && Asks(s, req.linked)
    ensures Fired(Rendered(routes).acls, Rendered(routes).rules, req, None) ==
      [Silence] + if s.tlsRedirect && !req.ssl then [Redirect] else [SetQuery, ReturnLink(req.ssl)]
  {
    hide Sorted, HostsDistinct, Entries, AclsUpTo, Fired, HostIn;
    var r := Route(s.hosts, s.path, s.backend, s.tlsRedirect, s.previewToken, s.linkBackend, false);
    assert s.hosts != [] by { NotEmpty(req.host, s.hosts); }
    assert r in EntriesOf(s);
    var k := RouteAt(routes, saved, s, r);
    assert Named(routes, req);
    forall j | 0 <= j < k ensures !Matches(routes, routes[j], req) {
      if routes[j].hosts != [] && HostIn(req.host, routes[j].hosts) {
        OneOwner(routes, j, k, req.host);
      }
    }
    LinkFires(routes, 0, k, req);
    AllRules(routes, 0);
    assert RulesUpTo(routes, 0, NamedHosts(routes)) + RulesFrom(routes, 0) == RulesFrom(routes, 0);
  }
}
