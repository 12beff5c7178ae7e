/** What one upstream config turns into for HAProxy: the sections of the service's
    backend file and the route that sends requests to them. */
module HAProxyGenerate {
  import opened Rollout
  import opened Text
  import opened HAProxyBackend
  import opened HAProxyFastPath
  import Frontend
  import RouteOrder
  import Restart

  /** The labels of a service that its route needs. */
  datatype Labels = Labels(hosts: seq<string>, path: string, affinity: string, tlsRedirect: bool, previewHost: string,
    previewLink: bool)
  {
    predicate Rewrites() {
      path != "" && path != "/"
    }
  }

  predicate Special(c: char) {
    c in "\\.+*?()|[]{}^$"
  }

  /** The text as a pattern that matches just it. */
  function QuoteMeta(s: string): string {
    if s == "" then "" else (if Special(s[0]) then ['\\', s[0]] else [s[0]]) + QuoteMeta(s[1..])
  }

  /** The one text that a pattern of plain and quoted characters matches; nothing when the
      pattern has another sense. */
  function OnlyMatch(pattern: string): Option<string> {
    if pattern == "" then Some("")
    else
      var quoted := pattern[0] == '\\' && |pattern| > 1;
      var c := if quoted then pattern[1] else pattern[0];
      var rest := OnlyMatch(if quoted then pattern[2..] else pattern[1..]);
      if rest.None? || Special(c) != quoted then None else Some([c] + rest.value)
  }

  lemma BackslashIsSpecial()
    ensures Special('\\')
  {
    assert "\\.+*?()|[]{}^$"[0] == '\\';
  }

  lemma {:induction false} QuoteMatches(s: string)
    ensures OnlyMatch(QuoteMeta(s)) == Some(s)
  {
    if s != "" {
      QuoteMatches(s[1..]);
      BackslashIsSpecial();
      var rest := QuoteMeta(s[1..]);
      assert [s[0]] + s[1..] == s;
      if Special(s[0]) {
        var all := ['\\', s[0]] + rest;
        assert QuoteMeta(s) == all && all[2..] == rest && all[1] == s[0];
      } else {
        assert QuoteMeta(s) == [s[0]] + rest && ([s[0]] + rest)[1..] == rest;
      }
    }
  }

  function RewriteWords(path: string): seq<string> {
    ["http-request", "replace-path", "^" + QuoteMeta(TrimSlash(path)) + "/?(.*)$", "/\\1"]
  }

  function Rewrite(labels: Labels): seq<string> {
    if labels.Rewrites() then [Indented(RewriteWords(labels.path))] else []
  }

  /** Whether the preview host, and the preview link, are live in a config. */
  predicate HostLive(labels: Labels, u: Upstream) {
    labels.previewHost != "" && u.preview != []
  }

  predicate LinkLive(labels: Labels, u: Upstream) {
    labels.previewLink && u.previewToken != "" && u.preview != []
  }

  function PreviewName(u: Upstream): string {
    Restart.ResolveName(u) + "_preview"
  }

  /** The sections of the backend file. `cookieFor` names the cookie of a backend. */
  function Sections(labels: Labels, u: Upstream, cookieFor: string -> string): (bs: seq<Section>)
    ensures bs != []
  {
    var main := Restart.ResolveName(u);
    var preview := PreviewName(u);
    [Section(main, labels.affinity, cookieFor(main), u.servers, Rewrite(labels))]
    + (if HostLive(labels, u) || (LinkLive(labels, u) && !labels.Rewrites()) then
         [Section(preview, labels.affinity, cookieFor(preview), u.preview, [])]
       else [])
    + (if LinkLive(labels, u) && labels.Rewrites() then
         [Section(preview + "_link", labels.affinity, cookieFor(preview + "_link"), u.preview, Rewrite(labels))]
       else [])
  }

  /** The route of a config: every name is spelled out from that of the upstream, and
      those of a preview are set only while it is live. */
  ghost predicate RouteFor(labels: Labels, u: Upstream, route: RouteOrder.SavedRoute) {
    var name := if u.upstreamName != "" then u.upstreamName else u.service;
    var host := labels.previewHost != "" && u.preview != [];
    var link := labels.previewLink && u.previewToken != "" && u.preview != [];
    && route.hosts == labels.hosts && route.path == labels.path && route.tlsRedirect == labels.tlsRedirect
    && route.backend == name + "_be"
    && route.previewHost == (if host then labels.previewHost else "")
    && route.previewBackend == (if host then name + "_preview_be" else "")
    && route.previewToken == (if link then u.previewToken else "")
    && route.linkBackend == (if !link then ""
                             else if labels.Rewrites() then name + "_preview_link_be"
                             else name + "_preview_be")
  }

  /** Works out the sections and the route of a config. */
  method GenerateBundledConfig(labels: Labels, u: Upstream, cookieFor: string -> string)
    returns (text: string, route: RouteOrder.SavedRoute)
    ensures text == FileText(Sections(labels, u, cookieFor)) && RouteFor(labels, u, route)
    ensures route.backend == BackendName(Sections(labels, u, cookieFor)[0])
    ensures HostLive(labels, u) ==>
      |Sections(labels, u, cookieFor)| > 1 && route.previewBackend == BackendName(Sections(labels, u, cookieFor)[1])
    ensures LinkLive(labels, u) ==>
      (var bs := Sections(labels, u, cookieFor); |bs| > 1 && route.linkBackend == BackendName(bs[|bs| - 1]))
  {
    hide FileLines, Terminated, Rewrite;
    var main := Restart.ResolveName(u);
    var previewName := main + "_preview";
    var preview := labels.previewHost != "" && |u.preview| > 0;
    var link := labels.previewLink && u.previewToken != "" && |u.preview| > 0;
    var rewrite := labels.path != "" && labels.path != "/";
    route := RouteOrder.SavedRoute(labels.hosts, labels.path, main + "_be", labels.tlsRedirect, "", "", "", "");
    if preview {
      route := route.(previewHost := labels.previewHost, previewBackend := previewName + "_be");
    }
    if link {
      route := route.(previewToken := u.previewToken, linkBackend := previewName + "_be");
      if rewrite {
        route := route.(linkBackend := previewName + "_link" + "_be");
      }
    }
    var backend := Section(main, labels.affinity, cookieFor(main), u.servers, Rewrite(labels));
    var extra: seq<Section> := [];
    if preview || (link && !rewrite) {
      extra := extra + [Section(previewName, labels.affinity, cookieFor(previewName), u.preview, [])];
    }
    if link && rewrite {
      var linkName := previewName + "_link";
      extra := extra + [Section(linkName, labels.affinity, cookieFor(linkName), u.preview, Rewrite(labels))];
    }
    assert Sections(labels, u, cookieFor) == [backend] + extra;
    text := RenderFile(backend, extra);
  }

  /** Every backend that the frontend may choose for the service is in its file,
      and the service has a preview route only while a preview is live. */
  lemma RoutesHaveBackends(labels: Labels, u: Upstream,
                           cookieFor: string -> string, route: RouteOrder.SavedRoute, r: Frontend.Route)
    requires var bs := Sections(labels, u, cookieFor);
      && route.previewHost == (if HostLive(labels, u) then labels.previewHost else "")
      && route.previewToken == (if LinkLive(labels, u) then u.previewToken else "")
      && route.backend == BackendName(bs[0])
      && (HostLive(labels, u) ==> |bs| > 1 && route.previewBackend == BackendName(bs[1]))
      && (LinkLive(labels, u) ==> |bs| > 1 && route.linkBackend == BackendName(bs[|bs| - 1]))
    requires r in RouteOrder.EntriesOf(route)
    ensures exists k ::
      0 <= k < |Sections(labels, u, cookieFor)| && BackendName(Sections(labels, u, cookieFor)[k]) == r.backend
    ensures r.previewToken != "" ==>
      exists k :: 0 <= k < |Sections(labels, u, cookieFor)| &&
        BackendName(Sections(labels, u, cookieFor)[k]) == r.linkBackend
    ensures r.previewToken != "" ==> LinkLive(labels, u)
    ensures r.previewOnly ==> HostLive(labels, u) && LinkLive(labels, u)
  {
    hide BackendName;
    var bs := Sections(labels, u, cookieFor);
    assert BackendName(bs[0]) == route.backend;
  }

  // -------------------------------------------------- files the fast path takes

  predicate Plain(servers: seq<Server>) {
    forall i :: 0 <= i < |servers| ==> Word(servers[i].addr) && !(servers[i].down && servers[i].backup)
  }

  lemma {:induction false} QuoteWord(s: string)
    requires forall i :: 0 <= i < |s| ==> !Blank(s[i])
    ensures forall i :: 0 <= i < |QuoteMeta(s)| ==> !Blank(QuoteMeta(s)[i])
  {
    if s != "" {
      QuoteWord(s[1..]);
    }
  }

  lemma RewriteIsWritten(labels: Labels)
    requires labels.Rewrites() ==> Word(labels.path)
    ensures forall k :: 0 <= k < |Rewrite(labels)| ==>
      OneLine(Rewrite(labels)[k]) && FirstWord(Rewrite(labels)[k]) == "http-request"
  {
    hide FirstWord, Indented, OneLine, QuoteMeta;
    if labels.Rewrites() {
      QuoteWord(TrimSlash(labels.path));
      assert Word("http-request") && Word("replace-path") && Word("/\\1");
      assert Word("^" + QuoteMeta(TrimSlash(labels.path)) + "/?(.*)$");
      IndentedWords(RewriteWords(labels.path));
    }
  }

  lemma NamesApart(labels: Labels, u: Upstream, cookieFor: string -> string)
    ensures OwnNames(Sections(labels, u, cookieFor))
  {
    var bs := Sections(labels, u, cookieFor);
    forall i, j | 0 <= i < j < |bs| ensures BackendName(bs[i]) != BackendName(bs[j]) {
      assert |bs[i].name| < |bs[j].name|;
    }
  }

  /** Every config of addresses and names without blanks, none of whose servers is
      both draining and backup, becomes a file that the fast path can take. */
  lemma SectionsAreWritten(labels: Labels, u: Upstream, cookieFor: string -> string)
    requires Word(Restart.ResolveName(u)) && (forall n :: Word(cookieFor(n))) &&
      (labels.Rewrites() ==> Word(labels.path))
    requires Plain(u.servers) && Plain(u.preview)
    ensures Written(Sections(labels, u, cookieFor))
  {
    hide FirstWord, Rewrite, OneLine;
    NamesApart(labels, u, cookieFor);
    RewriteIsWritten(labels);
    var name := Restart.ResolveName(u);
    assert Word(name + "_be") && Word(name + "_preview" + "_be") && Word(name + "_preview" + "_link" + "_be");
  }

  /** The configs of a release, of its abort and of a restart never mark a server
      both draining and backup. */
  lemma ReleaseConfigsAreSteady(d: Deployment, targets: seq<Container>, affinity: string, token: string,
                                weight: int, i: nat)
    requires forall c :: c in d.olds || c in d.news || c in targets ==> Word(c.addr)
    ensures Plain(OldOnly(d, affinity).servers) && Plain(NewOnly(d, affinity).servers) &&
      Plain(SplitUpstream(d, weight).servers)
    ensures Plain(BackupUpstream(d, affinity).servers) && Plain(TargetUpstream(d, targets).servers)
    ensures Plain(PreviewUpstream(d, token).servers) && Plain(PreviewUpstream(d, token).preview)
    ensures i < d.Replacements() ==> Plain(StepUpstream(d, i).servers)
  {
    hide Word;
    if i < d.Replacements() {
      StepIsSteady(d, i);
    }
  }

  lemma StepIsSteady(d: Deployment, i: nat)
    requires i < d.Replacements() && forall c :: c in d.olds || c in d.news ==> Word(c.addr)
    ensures Plain(StepUpstream(d, i).servers)
  {
    hide Word;
    var servers := StepServers(d, i);
    forall k | 0 <= k < |servers| ensures Word(servers[k].addr) && !(servers[k].down && servers[k].backup) {
      if k < i + 1 {
        assert servers[k].addr == d.news[k].addr && d.news[k] in d.news;
      } else if k == i + 1 {
        assert d.olds[i] in d.olds;
      } else {
        assert servers[k].addr == d.olds[k - 1].addr && d.olds[k - 1] in d.olds;
      }
    }
  }
}
