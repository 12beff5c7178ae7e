/** From an upstream config to the containers that answer: what its backend file
    says when it is read back, what the running proxy has once the file is applied,
    and whom a request reaches. */
module HAProxyServes {
  import opened Rollout
  import opened Text
  import opened HAProxyBackend
  import opened HAProxyRuntime
  import opened HAProxyFastPath
  import opened HAProxyGenerate
  import Frontend
  import RouteOrder
  import SavedRoutes
  import Restart
  import ConfigFiles

  // ------------------------------------------------------------ reading back

  /** These are the servers of a config, in its order: address, weight and state. */
  predicate ListsThem(listed: seq<Listed>, servers: seq<Server>) {
    && |listed| == |servers|
    && forall i :: 0 <= i < |servers| ==>
      && listed[i].addr == servers[i].addr
      && listed[i].weight == (if servers[i].weight > 0 then Itoa(servers[i].weight) else "1")
      && listed[i].maint == servers[i].down
      && SlotOf(listed[i]).backup == (servers[i].backup && !servers[i].down)
  }

  lemma SectionLists(b: Section)
    ensures ListsThem(Listing(b), b.servers)
  {
    hide SlotOf, Arguments, Itoa;
    forall i | 0 <= i < |b.servers|
      ensures SlotOf(Listing(b)[i]).backup == (b.servers[i].backup && !b.servers[i].down)
    {
      SlotOfServer(b, i);
    }
  }

  lemma PartCount(bs: seq<Section>)
    requires Written(bs)
    ensures |Cut(SplitLines(FileText(bs)))| == 1 + |bs|
  {
    hide FileText, Cut, SplitLines, WellWritten, Header, Part, Parts;
    WrittenFile(bs);
  }

  /** What the parts of a file read as: the header, and then the sections. */
  lemma PartReads(bs: seq<Section>, parts: seq<string>, k: nat)
    requires Written(bs) && k < |parts| == |Cut(SplitLines(FileText(bs)))|
    requires forall i :: 0 <= i < |parts| ==> parts[i] == JoinLines(Cut(SplitLines(FileText(bs)))[i])
    ensures k <= |bs| && Parse(SplitLines(parts[k])) ==
      Some(if k == 0 then Parsed("", []) else Parsed(BackendName(bs[k - 1]), Listing(bs[k - 1])))
  {
    hide FileText, Cut, SplitLines, JoinLines, Parse, WellWritten, Header, Part, Listing, Parts, BackendName;
    WrittenFile(bs);
    if k == 0 {
      HeaderSection();
      assert parts[0] == JoinLines([Header()]);
    } else {
      assert parts[k] == JoinLines(Part(bs[k - 1]));
      SectionText(bs[k - 1]);
    }
  }

  /** The backends of a config, each with the servers it must list. */
  predicate Wanted(labels: Labels, u: Upstream, route: RouteOrder.SavedRoute, name: string, servers: seq<Server>) {
    || (name == route.backend && servers == u.servers)
    || (HostLive(labels, u) && name == route.previewBackend && servers == u.preview)
    || (LinkLive(labels, u) && name == route.linkBackend && servers == u.preview)
  }

  /** The section of a backend: it keeps clients as the labels say, and rewrites the path
      unless it is the preview host's. */
  lemma SectionWanted(labels: Labels, u: Upstream, cookieFor: string -> string, route: RouteOrder.SavedRoute,
                      name: string, servers: seq<Server>) returns (k: nat)
    requires RouteFor(labels, u, route) && Wanted(labels, u, route, name, servers)
    ensures k < |Sections(labels, u, cookieFor)|
    ensures BackendName(Sections(labels, u, cookieFor)[k]) == name
    ensures var b := Sections(labels, u, cookieFor)[k];
      && b.servers == servers && b.affinity == labels.affinity
      && b.cookieName == cookieFor(name[..|name| - 3])
      && b.rewrite == if !labels.Rewrites() || name == route.previewBackend then [] else
           [Indented(["http-request", "replace-path", "^" + QuoteMeta(TrimSlash(labels.path)) + "/?(.*)$", "/\\1"])]
  {
    hide QuoteMeta, Indented;
    var main := Restart.ResolveName(u);
    assert main + "_preview" + "_be" == main + "_preview_be";
    assert main + "_preview" + "_link" + "_be" == main + "_preview_link_be";
    if name == route.backend && servers == u.servers {
      return 0;
    }
    k := if LinkLive(labels, u) && name == route.linkBackend && labels.Rewrites() && HostLive(labels, u) &&
            name != route.previewBackend
         then 2 else 1;
  }

  /** Read back, the part of the file for the route's backend lists the servers of the
      config, and those for its preview backends list the preview's; each backend has
      one part. */
  lemma FileLists(labels: Labels, u: Upstream, cookieFor: string -> string, route: RouteOrder.SavedRoute,
                  parts: seq<string>, name: string, servers: seq<Server>) returns (k: nat)
    requires Written(Sections(labels, u, cookieFor)) && RouteFor(labels, u, route)
    requires |parts| == |Cut(SplitLines(FileText(Sections(labels, u, cookieFor))))|
    requires forall i :: 0 <= i < |parts| ==>
      parts[i] == JoinLines(Cut(SplitLines(FileText(Sections(labels, u, cookieFor))))[i])
    requires Wanted(labels, u, route, name, servers)
    ensures k < |parts| && Parse(SplitLines(parts[k])).Some?
    ensures Parse(SplitLines(parts[k])).value.backend == name
    ensures ListsThem(Parse(SplitLines(parts[k])).value.servers, servers)
    ensures forall j :: 0 <= j < |parts| && j != k ==>
      Parse(SplitLines(parts[j])).Some? && Parse(SplitLines(parts[j])).value.backend != name
  {
    hide Sections, FileText, Cut, SplitLines, JoinLines, Parse, WellWritten, Listing, BackendName, RouteFor, Wanted;
    var bs := Sections(labels, u, cookieFor);
    var i := SectionWanted(labels, u, cookieFor, route, name, servers);
    k := i + 1;
    PartCount(bs);
    PartReads(bs, parts, k);
    SectionLists(bs[i]);
    forall j | 0 <= j < |parts| && j != k
      ensures Parse(SplitLines(parts[j])).Some? && Parse(SplitLines(parts[j])).value.backend != name
    {
      PartReads(bs, parts, j);
      NotEmptyName(bs[i]);
      if 0 < j < k {
        assert BackendName(bs[j - 1]) != BackendName(bs[i]);
      } else if k < j {
        assert BackendName(bs[i]) != BackendName(bs[j - 1]);
      }
    }
  }

  /** A file that the controller wrote is one that it may write again. */
  lemma FilesAreOurs(bs: seq<Section>)
    requires bs != []
    ensures ConfigFiles.Managed(FileText(bs))
  {
    hide SectionLines, Header;
    HeaderFirst(bs);
    HeaderStarts();
    var lines := FileLines(bs);
    assert Terminated(lines) == lines[0] + "\n" + Terminated(lines[1..]);
  }

  lemma SpacedStep(words: seq<string>)
    requires words != []
    ensures Spaced(words) == " " + words[0] + Spaced(words[1..])
  {
  }

  lemma HeaderStarts()
    ensures ConfigFiles.GENERATED <= Header()
  {
    hide Spaced;
    var words := HEADER_WORDS;
    SpacedStep(words);
    SpacedStep(words[1..]);
    SpacedStep(words[1..][1..]);
    GeneratedIs();
    var rest := Spaced(words[1..][1..][1..]);
    assert Header() == "#" + (" " + "Generated" + (" " + "by" + (" " + "docker-release" + rest)));
    assert Header() == "#" + (" " + "Generated") + (" " + "by") + (" " + "docker-release") + rest;
  }

  lemma GeneratedIs()
    ensures ConfigFiles.GENERATED == "#" + (" " + "Generated") + (" " + "by") + (" " + "docker-release")
  {
  }

  lemma {:induction false} HeaderFirst(bs: seq<Section>)
    requires bs != []
    ensures |FileLines(bs)| > 0 && FileLines(bs)[0] == Header()
    decreases |bs|
  {
    hide SectionLines, Header;
    if |bs| > 1 {
      HeaderFirst(bs[..|bs| - 1]);
    }
  }

  // ------------------------------------------------------------- the running proxy

  /** The running servers that take requests are these: one for each that does not
      drain, under the name of its place, with its address, weight and kind. */
  ghost predicate Answers(slots: Slots, servers: seq<Server>) {
    && (forall i :: 0 <= i < |servers| && !servers[i].down ==>
          var n := ServerName(servers[i], i);
          && n in slots && !slots[n].maint
          && slots[n].addr == servers[i].addr && slots[n].backup == servers[i].backup
          && slots[n].weight == (if servers[i].weight > 0 then Itoa(servers[i].weight) else "1"))
    && (forall n :: n in slots && !slots[n].maint ==>
          exists i :: 0 <= i < |servers| && !servers[i].down && n == ServerName(servers[i], i))
  }

  /** The addresses of the servers that take ordinary requests. */
  ghost function Serving(slots: Slots): set<string> {
    set n | n in slots && !slots[n].maint && !slots[n].backup :: slots[n].addr
  }

  lemma {:induction false} LiveAre(servers: seq<Server>, a: string)
    ensures a in Live(servers) <==>
      exists i :: 0 <= i < |servers| && !servers[i].down && !servers[i].backup && servers[i].addr == a
  {
    if servers != [] {
      LiveAre(servers[1..], a);
      if i :| 0 <= i < |servers| && !servers[i].down && !servers[i].backup && servers[i].addr == a {
        assert i > 0 ==> servers[1..][i - 1] == servers[i];
      }
    }
  }

  lemma AnswersServe(slots: Slots, servers: seq<Server>)
    requires Answers(slots, servers)
    ensures Serving(slots) == AddrSet(Live(servers))
  {
    hide ServerName, Itoa, Live;
    forall a ensures a in Serving(slots) <==> a in Live(servers) {
      LiveAre(servers, a);
      if n :| n in slots && !slots[n].maint && !slots[n].backup && slots[n].addr == a {
        var i :| 0 <= i < |servers| && !servers[i].down && n == ServerName(servers[i], i);
        assert servers[i].addr == a;
      }
      if i :| 0 <= i < |servers| && !servers[i].down && !servers[i].backup && servers[i].addr == a {
        var n := ServerName(servers[i], i);
        assert n in slots && !slots[n].maint && !slots[n].backup && slots[n].addr == a;
      }
    }
  }

  lemma ReloadedAnswers(b: Section)
    requires Steady(b)
    ensures Answers(Reloaded(Listing(b)), b.servers)
  {
    hide SlotOf, Itoa, Reloaded, Arguments, ServerName;
    ReloadedHas(b);
    forall i | 0 <= i < |b.servers|
      ensures ListedOf(b, i).name == ServerName(b.servers[i], i)
      ensures var slot := SlotOf(ListedOf(b, i));
        && slot.addr == b.servers[i].addr && slot.maint == b.servers[i].down
        && (!slot.maint ==> slot.backup == b.servers[i].backup)
        && slot.weight == (if b.servers[i].weight > 0 then Itoa(b.servers[i].weight) else "1")
    {
      SlotOfServer(b, i);
    }
  }

  lemma SameReady(slots: Slots, other: Slots, servers: seq<Server>)
    requires Ready(slots) == Ready(other) && Answers(other, servers)
    ensures Answers(slots, servers)
  {
    hide ServerName, Itoa;
    forall n ensures n in slots && !slots[n].maint <==> n in other && !other[n].maint
             ensures n in slots && !slots[n].maint ==> slots[n] == other[n]
    {
      assert n in Ready(slots) <==> n in Ready(other);
      if n in Ready(slots) {
        assert Ready(slots)[n] == Ready(other)[n];
      }
    }
  }

  /** Once the file of a config is applied, the backend of its route has exactly the
      servers of the config, those that take ordinary requests are the live ones, and
      the backends of a live preview have exactly the preview's. */
  lemma RunningServes(labels: Labels, u: Upstream, cookieFor: string -> string, route: RouteOrder.SavedRoute,
                      backends: map<string, Slots>)
    requires Written(Sections(labels, u, cookieFor)) && RouteFor(labels, u, route)
    requires Shows(backends, Sections(labels, u, cookieFor))
    ensures forall name, servers :: Wanted(labels, u, route, name, servers) ==>
      && name in backends
      && Answers(backends[name], servers) && Serving(backends[name]) == AddrSet(Live(servers))
  {
    hide Sections, WellWritten, Listing, BackendName, RouteFor, Wanted, Ready, Reloaded, Answers, Serving, Steady;
    hide Live;
    forall name, servers | Wanted(labels, u, route, name, servers)
      ensures name in backends
      ensures Answers(backends[name], servers) && Serving(backends[name]) == AddrSet(Live(servers))
    {
      var k := SectionWanted(labels, u, cookieFor, route, name, servers);
      var b := Sections(labels, u, cookieFor)[k];
      assert ShowsOne(backends, b);
      ReloadedAnswers(b);
      SameReady(backends[name], Reloaded(Listing(b)), servers);
      AnswersServe(backends[name], servers);
    }
  }

  // ------------------------------------------------------------- from end to end

  /** Whom a request to a host of a service reaches once the service's config is in
      force: without the token the live servers of the config, and with the token of
      a live preview those of the preview. */
  lemma UsersReach(labels: Labels, u: Upstream, cookieFor: string -> string, route: RouteOrder.SavedRoute,
                   backends: map<string, Slots>, routes: seq<Frontend.Route>, saved: seq<RouteOrder.SavedRoute>,
                   req: Frontend.Request)
    requires Written(Sections(labels, u, cookieFor)) && RouteFor(labels, u, route)
    requires Shows(backends, Sections(labels, u, cookieFor))
    requires SavedRoutes.MadeOf(routes, saved) && route in saved
    requires Frontend.HostIn(req.host, labels.hosts) && SavedRoutes.OnPath(labels.path, req)
    requires req.path != "/health" || req.ssl
    requires !labels.tlsRedirect || req.ssl
    requires LinkLive(labels, u) ==> u.previewToken !in req.linked
    ensures var answer := Frontend.Evaluate(Frontend.Rendered(routes), req);
      && answer.Backend? && answer.name in backends
      && Serving(backends[answer.name]) ==
         AddrSet(Live(if LinkLive(labels, u) && u.previewToken in req.carried then u.preview else u.servers))
  {
    hide Sections, Shows, Answers, Serving, Live, Written, SavedRoutes.MadeOf, Frontend.Evaluate, Frontend.Rendered;
    hide Frontend.HostIn;
    RunningServes(labels, u, cookieFor, route, backends);
    SavedRoutes.ServiceHost(routes, saved, route, req);
    var answer := Frontend.Evaluate(Frontend.Rendered(routes), req);
    assert Wanted(labels, u, route, answer.name,
                  if LinkLive(labels, u) && u.previewToken in req.carried then u.preview else u.servers);
  }
}
