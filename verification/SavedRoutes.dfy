/** What the frontend makes of a request, said of the saved routes of the services,
    whatever the routes and rules that are made of them. */
module SavedRoutes {
  import opened Rollout
  import opened Text
  import opened Frontend
  import opened Routing
  import opened RouteOrder

  /** Routes made of these saved ones, in the order of the frontend, no host used twice. */
  ghost predicate MadeOf(routes: seq<Route>, saved: seq<SavedRoute>) {
    && Sorted(routes) && multiset(routes) == multiset(Entries(saved)) && HostsDistinct(routes)
    && forall s :: s in saved ==> s.tlsRedirect ==> s.hosts != []
  }

  predicate OnPath(path: string, req: Request) {
    path == "" || path == "/" || path <= req.path
  }

  /** Whether a request asks for the preview of a service. */
  predicate Asks(s: SavedRoute, tokens: set<string>) {
    s.previewToken != "" && s.previewToken in tokens
  }

  // ------------------------------------------------------ routes and their owners

  lemma {:induction false} EntriesHave(saved: seq<SavedRoute>, r: Route)
    ensures r in Entries(saved) <==> exists i :: 0 <= i < |saved| && r in EntriesOf(saved[i])
  {
    hide EntriesOf;
    if saved != [] {
      var rest := saved[..|saved| - 1];
      EntriesHave(rest, r);
      assert forall i :: 0 <= i < |rest| ==> rest[i] == saved[i];
    }
  }

  lemma RouteAt(routes: seq<Route>, saved: seq<SavedRoute>, s: SavedRoute, r: Route) returns (k: nat)
    requires MadeOf(routes, saved) && s in saved && r in EntriesOf(s)
    ensures k < |routes| && routes[k] == r
  {
    hide EntriesOf, Sorted, HostsDistinct;
    EntriesHave(saved, r);
    assert r in multiset(Entries(saved));
    assert r in routes;
    k :| 0 <= k < |routes| && routes[k] == r;
  }

  lemma OwnerOf(routes: seq<Route>, saved: seq<SavedRoute>, r: Route) returns (s: SavedRoute)
    requires MadeOf(routes, saved) && r in routes
    ensures s in saved && r in EntriesOf(s)
  {
    hide EntriesOf, Sorted, HostsDistinct;
    assert r in multiset(routes);
    assert r in Entries(saved);
    EntriesHave(saved, r);
    var i :| 0 <= i < |saved| && r in EntriesOf(saved[i]);
    s := saved[i];
  }

  lemma AllWellMade(routes: seq<Route>, saved: seq<SavedRoute>)
    requires MadeOf(routes, saved)
    ensures forall r :: r in routes ==> WellMade(r)
  {
    hide Sorted, HostsDistinct, WellMade;
    EntriesWellMade(saved);
    forall r | r in routes ensures WellMade(r) {
      assert r in multiset(routes);
      assert r in Entries(saved);
    }
  }

  // ------------------------------------------------------------- named hosts

  /** A request to a host of a service: its path decides between the service and 404, and
      the token it carries between the containers of its preview and its own. */
  lemma ServiceHost(routes: seq<Route>, saved: seq<SavedRoute>, s: SavedRoute, req: Request)
    requires MadeOf(routes, saved) && s in saved && HostIn(req.host, s.hosts)
    requires req.path != "/health" || req.ssl
    ensures Evaluate(Rendered(routes), req) ==
      if !OnPath(s.path, req) then NotFound
      else if s.tlsRedirect && !req.ssl then ToHttps
      else if Asks(s, req.linked) then SetCookie(req.ssl)
      else if Asks(s, req.carried) then Backend(s.linkBackend)
      else Backend(s.backend)
  {
    hide Sorted, HostsDistinct, Rendered, Walk, Entries;
    var r := Route(s.hosts, s.path, s.backend, s.tlsRedirect, s.previewToken, s.linkBackend, false);
    assert s.hosts != [] by { NotEmpty(req.host, s.hosts); }
    assert r in EntriesOf(s);
    var k := RouteAt(routes, saved, s, r);
    NamedHost(routes, k, req);
    FrontendWalks(routes, req);
  }

  /** Whether a preview of this service is live on its host. */
  predicate OnHost(s: SavedRoute) {
    s.previewHost != "" && s.previewBackend != ""
  }

  /** A request to the preview host of a service, with its token if it has one, goes to
      the containers of its preview, whatever its path. */
  lemma ServicePreview(routes: seq<Route>, saved: seq<SavedRoute>, s: SavedRoute, req: Request)
    requires MadeOf(routes, saved) && s in saved && OnHost(s) && Lower(req.host) == Lower(s.previewHost)
    requires req.path != "/health" || req.ssl
    requires s.previewToken == "" || Asks(s, req.carried) || Asks(s, req.linked)
    ensures Evaluate(Rendered(routes), req) ==
      if s.tlsRedirect && !req.ssl then ToHttps
      else if Asks(s, req.linked) then SetCookie(req.ssl)
      else Backend(s.previewBackend)
  {
    hide Sorted, HostsDistinct, Rendered, Walk, Lower, Entries;
    var token := s.previewToken;
    var r := Route([s.previewHost], "", s.previewBackend, s.tlsRedirect, token,
      if token != "" then s.previewBackend else "", token != "");
    assert r in EntriesOf(s);
    assert r.hosts[0] == s.previewHost && HostIn(req.host, r.hosts);
    var k := RouteAt(routes, saved, s, r);
    AllWellMade(routes, saved);
    FrontendWalks(routes, req);
    if token == "" {
      NamedHost(routes, k, req);
    } else {
      PreviewHost(routes, k, req);
    }
  }

  // ----------------------------------------------------------- no host of theirs

  /** No service has the host of a request, and no live preview on it is asked for. */
  ghost predicate Strange(saved: seq<SavedRoute>, req: Request) {
    forall s :: s in saved ==>
      && !HostIn(req.host, s.hosts)
      && (OnHost(s) && Lower(req.host) == Lower(s.previewHost) ==>
            s.previewToken != "" && !Asks(s, req.carried) && !Asks(s, req.linked))
  }

  predicate Takes(s: SavedRoute, req: Request) {
    s.hosts == [] && s.path != "" && OnPath(s.path, req)
  }

  lemma StrangeIsUnnamed(routes: seq<Route>, saved: seq<SavedRoute>, req: Request)
    requires MadeOf(routes, saved) && Strange(saved, req)
    ensures !Named(routes, req)
    ensures forall j :: 0 <= j < |routes| && routes[j].previewOnly && HostIn(req.host, routes[j].hosts) ==>
      !IsCarried(routes[j], req) && !IsLinked(routes[j], req)
  {
    hide Sorted, HostsDistinct, Lower, MadeOf;
    forall j | 0 <= j < |routes| && HostIn(req.host, routes[j].hosts)
      ensures routes[j].previewOnly && !IsCarried(routes[j], req) && !IsLinked(routes[j], req)
    {
      var s := OwnerOf(routes, saved, routes[j]);
      assert routes[j].hosts != s.hosts ==> routes[j].hosts == [s.previewHost];
    }
  }

  lemma CompetesIsTaking(routes: seq<Route>, saved: seq<SavedRoute>, r: Route, req: Request) returns (s: SavedRoute)
    requires MadeOf(routes, saved) && r in routes && Competes(r, req)
    ensures s in saved && Takes(s, req)
    ensures r == Route([], s.path, s.backend, s.tlsRedirect, s.previewToken, s.linkBackend, false)
  {
    hide Sorted, HostsDistinct, MadeOf;
    s := OwnerOf(routes, saved, r);
  }

  /** A request to a host that no service has goes to the hostless service with the
      longest path that its path starts with, and of equal ones to that with the first
      backend name. */
  lemma ServicePath(routes: seq<Route>, saved: seq<SavedRoute>, s: SavedRoute, req: Request)
    requires MadeOf(routes, saved) && s in saved && Strange(saved, req) && Takes(s, req)
    requires forall t :: t in saved && Takes(t, req) ==>
      t == s || |t.path| < |s.path| || (|t.path| == |s.path| && LexLess(s.backend, t.backend))
    requires req.path != "/health" || req.ssl
    ensures Evaluate(Rendered(routes), req) ==
      if Asks(s, req.linked) then SetCookie(req.ssl)
      else if Asks(s, req.carried) then Backend(s.linkBackend)
      else Backend(s.backend)
  {
    hide Sorted, HostsDistinct, Rendered, Walk, Entries, Strange, HostIn;
    var r := Route(s.hosts, s.path, s.backend, s.tlsRedirect, s.previewToken, s.linkBackend, false);
    assert r in EntriesOf(s);
    var k := RouteAt(routes, saved, s, r);
    assert Competes(r, req);
    StrangeIsUnnamed(routes, saved, req);
    AllWellMade(routes, saved);
    FrontendWalks(routes, req);
    var best := UnnamedHost(routes, req);
    var t := CompetesIsTaking(routes, saved, best.value, req);
  }

  /** And to nobody if there is none. */
  lemma NoService(routes: seq<Route>, saved: seq<SavedRoute>, req: Request)
    requires MadeOf(routes, saved) && Strange(saved, req) && forall t :: t in saved ==> !Takes(t, req)
    requires req.path != "/health" || req.ssl
    ensures Evaluate(Rendered(routes), req) == NotFound
  {
    hide Sorted, HostsDistinct, Rendered, Walk, Entries, Strange, HostIn, Takes;
    StrangeIsUnnamed(routes, saved, req);
    AllWellMade(routes, saved);
    FrontendWalks(routes, req);
    var best := UnnamedHost(routes, req);
    if best.Some? {
      var _ := CompetesIsTaking(routes, saved, best.value, req);
    }
  }
}
