/** The order of the routes in the frontend, and what it makes of a request: its
    own host's route, or the longest matching path. */
module RouteOrder {
  import opened Rollout
  import opened Text
  import opened Frontend
  import opened Routing

  // ------------------------------------------------------------------ sorting

  predicate LexLess(a: string, b: string) {
    if b == [] then false
    else if a == [] then true
    else if a[0] != b[0] then a[0] < b[0]
    else LexLess(a[1..], b[1..])
  }

  lemma {:induction false} LexTransitive(a: string, b: string, c: string)
    requires LexLess(a, b) && LexLess(b, c)
    ensures LexLess(a, c)
  {
    if a != [] && a[0] == b[0] && b[0] == c[0] {
      LexTransitive(a[1..], b[1..], c[1..]);
    }
  }

  /** Routes with hosts first, then longer paths, then by backend name. */
  predicate Before(a: Route, b: Route) {
    if (a.hosts != []) != (b.hosts != []) then a.hosts != []
    else if |a.path| != |b.path| then |a.path| > |b.path|
    else LexLess(a.backend, b.backend)
  }

  predicate Sorted(routes: seq<Route>) {
    forall i, j :: 0 <= i < j < |routes| ==> !Before(routes[j], routes[i])
  }

  function Insert(routes: seq<Route>, r: Route): (s: seq<Route>)
    ensures multiset(s) == multiset(routes) + multiset{r}
  {
    if routes == [] then [r]
    else if Before(r, routes[0]) then
      [r] + routes
    else
      assert routes == [routes[0]] + routes[1..];
      [routes[0]] + Insert(routes[1..], r)
  }

  lemma BeforeTransitive(a: Route, b: Route, c: Route)
    requires Before(a, b) && Before(b, c)
    ensures Before(a, c)
  {
    if LexLess(a.backend, b.backend) && LexLess(b.backend, c.backend) {
      LexTransitive(a.backend, b.backend, c.backend);
    }
  }

  lemma {:induction false} InsertSorted(routes: seq<Route>, r: Route)
    requires Sorted(routes)
    ensures Sorted(Insert(routes, r))
  {
    hide Before;
    if routes == [] {
    } else if Before(r, routes[0]) {
      var s := [r] + routes;
      forall j | 1 <= j < |s| ensures !Before(s[j], r) {
        if Before(s[j], r) {
          BeforeTransitive(s[j], r, routes[0]);
          SortedFirst(routes, j - 1);
        }
      }
    } else {
      var rest := Insert(routes[1..], r);
      assert Sorted(routes[1..]);
      InsertSorted(routes[1..], r);
      var s := [routes[0]] + rest;
      forall j | 1 <= j < |s| ensures !Before(s[j], routes[0]) {
        assert s[j] in multiset(rest);
        assert s[j] == r || s[j] in routes[1..];
      }
    }
  }

  lemma SortedFirst(routes: seq<Route>, j: nat)
    requires Sorted(routes) && j < |routes|
    ensures !Before(routes[j], routes[0])
  {
    if j == 0 {
      Irreflexive(routes[0]);
    }
  }

  lemma Irreflexive(r: Route)
    ensures !Before(r, r)
  {
    NotLess(r.backend);
  }

  lemma {:induction false} NotLess(a: string)
    ensures !LexLess(a, a)
  {
    if a != [] {
      NotLess(a[1..]);
    }
  }

  // ------------------------------------------------------------- saved routes

  /** What a service's route file holds. The preview fields are set only while a
      preview is live. */
  datatype SavedRoute = SavedRoute(
    hosts: seq<string>,
    path: string,
    backend: string,
    tlsRedirect: bool,
    previewHost: string,
    previewBackend: string,
    previewToken: string,
    linkBackend: string)

  /** The routes of one service: its preview host's, if live, and its own. */
  function EntriesOf(s: SavedRoute): seq<Route> {
    (if s.previewHost != "" && s.previewBackend != "" then
       [Route([s.previewHost], "", s.previewBackend, s.tlsRedirect, s.previewToken,
              if s.previewToken != "" then s.previewBackend else "", s.previewToken != "")]
     else [])
    + (if s.hosts != [] || s.path != "" then
         [Route(s.hosts, s.path, s.backend, s.tlsRedirect, s.previewToken, s.linkBackend, false)]
       else [])
  }

  function Entries(saved: seq<SavedRoute>): seq<Route> {
    if saved == [] then [] else Entries(saved[..|saved| - 1]) + EntriesOf(saved[|saved| - 1])
  }

  /** Gathers the routes of all services and sorts them; `saved` is in whichever
      order the files came. */
  method BundledRoutes(saved: seq<SavedRoute>) returns (routes: seq<Route>)
    ensures Sorted(routes) && multiset(routes) == multiset(Entries(saved))
  {
    hide Before, EntriesOf, Insert;
    var found := [];
    for i := 0 to |saved|
      invariant found == Entries(saved[..i])
    {
      assert saved[..i + 1][..i] == saved[..i];
      var entries := RoutesOf(saved[i]);
      found := found + entries;
    }
    assert saved[..|saved|] == saved;
    routes := [];
    for i := 0 to |found|
      invariant Sorted(routes) && multiset(routes) == multiset(found[..i])
    {
      assert found[..i + 1] == found[..i] + [found[i]];
      InsertSorted(routes, found[i]);
      routes := Insert(routes, found[i]);
    }
    assert found[..|found|] == found;
  }

  method RoutesOf(s: SavedRoute) returns (routes: seq<Route>)
    ensures routes == EntriesOf(s)
  {
    routes := [];
    if s.previewHost != "" && s.previewBackend != "" {
      var entry := Route([s.previewHost], "", s.previewBackend, s.tlsRedirect, "", "", false);
      if s.previewToken != "" {
        entry := entry.(previewToken := s.previewToken, linkBackend := s.previewBackend, previewOnly := true);
      }
      routes := routes + [entry];
    }
    if s.hosts != [] || s.path != "" {
      routes := routes + [Route(s.hosts, s.path, s.backend, s.tlsRedirect, s.previewToken, s.linkBackend, false)];
    }
  }

  /** What the labels guarantee: a redirect needs a certificate, which needs a
      host. And a preview host's own route has a host, a token and no path. */
  predicate WellMade(r: Route) {
    && (r.tlsRedirect ==> r.hosts != [])
    && (r.previewOnly ==> r.hosts != [] && r.path == "" && r.previewToken != "")
  }

  lemma {:induction false} EntriesWellMade(saved: seq<SavedRoute>)
    requires forall s :: s in saved ==> (s.tlsRedirect ==> s.hosts != [])
    ensures forall r :: r in Entries(saved) ==> WellMade(r)
  {
    if saved != [] {
      EntriesWellMade(saved[..|saved| - 1]);
      assert saved[|saved| - 1] in saved;
    }
  }

  // ------------------------------------------------------- who gets a request

  lemma {:induction false} HostsGrow(routes: seq<Route>, n: nat, m: nat)
    requires n <= m <= |routes|
    ensures HostsUpTo(routes, n) <= HostsUpTo(routes, m)
    decreases m
  {
    if n < m {
      HostsGrow(routes, n, m - 1);
    }
  }

  /** No two routes have a host in common. */
  lemma OneOwner(routes: seq<Route>, i: nat, j: nat, host: string)
    requires HostsDistinct(routes) && i < |routes| && j < |routes|
    requires HostIn(host, routes[i].hosts) && HostIn(host, routes[j].hosts)
    ensures i == j
  {
    if i < j {
      Clash(routes, i, j, host);
    } else if j < i {
      Clash(routes, j, i, host);
    }
  }

  /** Where a route's host stands in the list of all hosts. */
  lemma HostAt(routes: seq<Route>, i: nat, a: nat) returns (x: nat)
    requires i < |routes| && a < |routes[i].hosts|
    ensures |HostsUpTo(routes, i)| <= x < |HostsUpTo(routes, i + 1)| <= |HostsUpTo(routes, |routes|)|
    ensures HostsUpTo(routes, |routes|)[x] == routes[i].hosts[a]
  {
    x := |HostsUpTo(routes, i)| + a;
    HostsGrow(routes, i + 1, |routes|);
    assert HostsUpTo(routes, i + 1)[x] == routes[i].hosts[a];
  }

  lemma Clash(routes: seq<Route>, i: nat, j: nat, host: string)
    requires i < j < |routes|
    requires HostIn(host, routes[i].hosts) && HostIn(host, routes[j].hosts)
    ensures !HostsDistinct(routes)
  {
    hide Lower, HostsUpTo;
    var a :| 0 <= a < |routes[i].hosts| && Lower(routes[i].hosts[a]) == Lower(host);
    var b :| 0 <= b < |routes[j].hosts| && Lower(routes[j].hosts[b]) == Lower(host);
    var x := HostAt(routes, i, a);
    var y := HostAt(routes, j, b);
    HostsGrow(routes, i + 1, j);
  }

  /** A route that changes nothing about a request. */
  predicate Idle(routes: seq<Route>, r: Route, req: Request) {
    Matches(routes, r, req) ==> r.previewOnly && !IsCarried(r, req) && !IsLinked(r, req)
  }

  lemma {:induction false} WalkSkips(routes: seq<Route>, i: nat, j: nat, req: Request, chosen: Option<string>)
    requires i <= j <= |routes| && forall k :: i <= k < j ==> Idle(routes, routes[k], req)
    ensures Walk(routes, i, req, chosen) == Walk(routes, j, req, chosen)
    decreases j - i
  {
    hide Matches, IsCarried, IsLinked;
    if i < j {
      WalkSkips(routes, i + 1, j, req, chosen);
    }
  }

  /** Once a backend is chosen, routes without a redirect leave it. */
  lemma {:induction false} WalkKeeps(routes: seq<Route>, i: nat, req: Request, backend: string)
    requires i <= |routes|
    requires forall k :: i <= k < |routes| ==> Idle(routes, routes[k], req) || !routes[k].tlsRedirect
    ensures Walk(routes, i, req, Some(backend)) == Backend(backend)
    decreases |routes| - i
  {
    hide Matches, IsCarried, IsLinked;
    if i < |routes| {
      WalkKeeps(routes, i + 1, req, backend);
    }
  }

  /** What a route makes of a request that is its own. */
  function Own(r: Route, req: Request): Answer {
    if r.tlsRedirect && !req.ssl then ToHttps
    else if IsLinked(r, req) then SetCookie(req.ssl)
    else if IsCarried(r, req) then Backend(r.linkBackend)
    else Backend(r.backend)
  }

  /** A host that a route names belongs to that route alone: the path decides
      between the route and 404, and no other route is asked. */
  lemma NamedHost(routes: seq<Route>, k: nat, req: Request)
    requires HostsDistinct(routes) && k < |routes| && !routes[k].previewOnly && HostIn(req.host, routes[k].hosts)
    ensures Walk(routes, 0, req, None) == if PathMatches(routes[k], req) then Own(routes[k], req) else NotFound
  {
    hide Walk, HostIn, HostsDistinct;
    var r := routes[k];
    assert r.hosts != [] by { NotEmpty(req.host, r.hosts); }
    assert Named(routes, req);
    forall j | 0 <= j < |routes| && j != k ensures !Matches(routes, routes[j], req) {
      if routes[j].hosts != [] && HostIn(req.host, routes[j].hosts) {
        OneOwner(routes, j, k, req.host);
      }
    }
    WalkSkips(routes, 0, k, req, None);
    WalkOne(routes, k, req, None);
    var pass := PassOf(routes, r, req, None);
    if pass.Goes? {
      WalkSkips(routes, k + 1, |routes|, req, pass.chosen);
      WalkEnd(routes, req, pass.chosen);
    }
  }

  lemma NotEmpty(host: string, hosts: seq<string>)
    requires HostIn(host, hosts)
    ensures hosts != []
  {
  }

  lemma WalkOne(routes: seq<Route>, i: nat, req: Request, chosen: Option<string>)
    requires i < |routes|
    ensures var pass := PassOf(routes, routes[i], req, chosen);
      Walk(routes, i, req, chosen) == if pass.Ends? then pass.answer else Walk(routes, i + 1, req, pass.chosen)
  {
  }

  lemma WalkEnd(routes: seq<Route>, req: Request, chosen: Option<string>)
    ensures Walk(routes, |routes|, req, chosen) == if chosen.Some? then Backend(chosen.value) else NotFound
  {
  }

  predicate Competes(r: Route, req: Request) {
    r.hosts == [] && PathMatches(r, req)
  }

  lemma FirstCompeting(routes: seq<Route>, req: Request) returns (k: nat)
    ensures k <= |routes| && (forall j :: 0 <= j < k ==> !Competes(routes[j], req))
    ensures k < |routes| ==> Competes(routes[k], req)
  {
    k := 0;
    while k < |routes| && !Competes(routes[k], req)
      invariant k <= |routes| && forall j :: 0 <= j < k ==> !Competes(routes[j], req)
    {
      k := k + 1;
    }
  }

  /** A host that no route names, and no live preview answers, goes to the hostless
      route with the longest path that its path starts with, or to nobody if there
      is none. */
  lemma UnnamedHost(routes: seq<Route>, req: Request) returns (best: Option<Route>)
    requires Sorted(routes) && (forall r :: r in routes ==> WellMade(r)) && !Named(routes, req)
    requires forall j :: 0 <= j < |routes| && routes[j].previewOnly && HostIn(req.host, routes[j].hosts) ==>
      !IsCarried(routes[j], req) && !IsLinked(routes[j], req)
    ensures best.Some? ==> best.value in routes && Competes(best.value, req)
    ensures best.Some? ==> forall r :: r in routes && Competes(r, req) ==> !Before(r, best.value)
    ensures best.Some? ==> forall r :: r in routes && Competes(r, req) ==> |r.path| <= |best.value.path|
    ensures best.None? ==> forall r :: r in routes ==> !Competes(r, req)
    ensures Walk(routes, 0, req, None) == if best.Some? then Own(best.value, req) else NotFound
  {
    hide Walk, HostIn, PathMatches, LexLess;
    var k := FirstCompeting(routes, req);
    forall j | 0 <= j < |routes| && !Competes(routes[j], req) ensures Idle(routes, routes[j], req) {
      assert routes[j] in routes;
    }
    forall j | 0 <= j < |routes| ensures Idle(routes, routes[j], req) || !routes[j].tlsRedirect {
      assert routes[j] in routes && WellMade(routes[j]);
    }
    WalkSkips(routes, 0, k, req, None);
    if k == |routes| {
      WalkEnd(routes, req, None);
      return None;
    }
    best := Some(routes[k]);
    WalkOne(routes, k, req, None);
    assert routes[k] in routes && WellMade(routes[k]) && Matches(routes, routes[k], req);
    var pass := PassOf(routes, routes[k], req, None);
    if pass.Goes? {
      WalkKeeps(routes, k + 1, req, pass.chosen.value);
    }
    forall r | r in routes && Competes(r, req) ensures !Before(r, routes[k]) && |r.path| <= |routes[k].path| {
      var j :| 0 <= j < |routes| && routes[j] == r;
      assert j > k ==> !Before(routes[j], routes[k]);
      Irreflexive(r);
    }
  }

  /** A live preview answers on its own host the requests that carry its token. */
  lemma PreviewHost(routes: seq<Route>, k: nat, req: Request)
    requires HostsDistinct(routes) && (forall r :: r in routes ==> WellMade(r))
    requires k < |routes| && routes[k].previewOnly && HostIn(req.host, routes[k].hosts)
    requires IsCarried(routes[k], req) || IsLinked(routes[k], req)
    requires Sorted(routes)
    ensures !Named(routes, req)
    ensures Walk(routes, 0, req, None) ==
      if routes[k].tlsRedirect && !req.ssl then ToHttps
      else if IsLinked(routes[k], req) then SetCookie(req.ssl)
      else Backend(routes[k].linkBackend)
  {
    hide Walk, HostIn, HostsDistinct, LexLess;
    var r := routes[k];
    assert r in routes && WellMade(r);
    forall j | 0 <= j < |routes| && j != k ensures !HostIn(req.host, routes[j].hosts) {
      if HostIn(req.host, routes[j].hosts) {
        OneOwner(routes, j, k, req.host);
      }
    }
    assert !Named(routes, req);
    forall j | 0 <= j < k ensures !Matches(routes, routes[j], req) {
      assert !Before(routes[k], routes[j]);
    }
    WalkSkips(routes, 0, k, req, None);
    WalkOne(routes, k, req, None);
    var pass := PassOf(routes, r, req, None);
    if pass.Goes? {
      forall j | k + 1 <= j < |routes| ensures Idle(routes, routes[j], req) || !routes[j].tlsRedirect {
        assert routes[j] in routes && WellMade(routes[j]);
      }
      WalkKeeps(routes, k + 1, req, pass.chosen.value);
    }
  }
}
