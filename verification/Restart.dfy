/** What a restarted controller writes to the proxy for a release it finds in
    the saved state, before anything else happens to that release. */
module Restart {
  import opened Rollout

  function ResolveName(u: Upstream): string {
    if u.upstreamName != "" then u.upstreamName else u.service
  }

  /** The upstream with its name spelled out, as every provider reads it. */
  function Resolved(u: Upstream): Upstream {
    u.(upstreamName := ResolveName(u))
  }

  /** Servers for the ids that are listed and resolve, in the saved order.
      `book` has the address of each such container. */
  function KnownServers(book: map<string, string>, ids: seq<string>, weight: int, group: string): seq<Server> {
    if ids == [] then []
    else
      (if ids[0] in book then [Server(book[ids[0]], weight, false, false, group)] else [])
      + KnownServers(book, ids[1..], weight, group)
  }

  /** The weight a restart gives the new containers, if it can tell. */
  function RestartWeight(config: Settings, ds: DeploymentState): Option<int> {
    var weight :=
      if ds.weight > 0 then ds.weight
      else if ds.strategy == "canary" then config.canaryStart
      else if ds.strategy == "blue-green" then config.greenWeight
      else 0;
    if 0 < weight <= 100 then Some(weight) else None
  }

  function RestartUpstream(service: string, config: Settings, ds: DeploymentState,
                           book: map<string, string>): Option<Upstream> {
    if ds.status != InProgress || ds.stable == [] || ds.canary == [] || RestartWeight(config, ds).None? then None
    else
      var weight := RestartWeight(config, ds).value;
      var servers :=
        (if 100 - weight > 0 then KnownServers(book, ds.stable, 100 - weight, "stable") else [])
        + KnownServers(book, ds.canary, weight, "canary");
      if servers == [] then None
      else Some(ApplySettings(config, Upstream(service, config.upstreamName, servers, config.affinity, 0, "", [], "")))
  }

  method AddWeightedServers(servers: seq<Server>, book: map<string, string>, ids: seq<string>, weight: int,
                            group: string)
    returns (r: seq<Server>)
    ensures r == servers + KnownServers(book, ids, weight, group)
  {
    r := servers;
    var i := 0;
    while i < |ids|
      invariant 0 <= i <= |ids|
      invariant r + KnownServers(book, ids[i..], weight, group) == servers + KnownServers(book, ids, weight, group)
    {
      assert ids[i..][1..] == ids[i + 1..];
      if ids[i] in book {
        r := r + [Server(book[ids[i]], weight, false, false, group)];
      }
      i := i + 1;
    }
  }

  method DeploymentStateUpstream(service: string, config: Settings, ds: DeploymentState, book: map<string, string>)
    returns (u: Option<Upstream>)
    ensures u == RestartUpstream(service, config, ds, book)
  {
    hide ApplySettings, KnownServers;
    if ds.status != InProgress || |ds.stable| == 0 || |ds.canary| == 0 {
      return None;
    }
    var weight := ds.weight;
    if weight <= 0 {
      if ds.strategy == "canary" {
        weight := config.canaryStart;
      } else if ds.strategy == "blue-green" {
        weight := config.greenWeight;
      } else {
        return None;
      }
    }
    if weight <= 0 || weight > 100 {
      return None;
    }
    var servers := [];
    if 100 - weight > 0 {
      servers := AddWeightedServers(servers, book, ds.stable, 100 - weight, "stable");
    }
    assert servers == if 100 - weight > 0 then KnownServers(book, ds.stable, 100 - weight, "stable") else [];
    servers := AddWeightedServers(servers, book, ds.canary, weight, "canary");
    if |servers| == 0 {
      return None;
    }
    return Some(ApplySettings(config, Upstream(service, config.upstreamName, servers, config.affinity, 0, "", [], "")));
  }

  /** The book resolves every container of the release to its own address. */
  predicate Knows(book: map<string, string>, cs: seq<Container>) {
    forall c :: c in cs ==> c.id in book && book[c.id] == c.addr
  }

  lemma {:induction false} KnownWeighted(book: map<string, string>, cs: seq<Container>, weight: int, group: string)
    requires Knows(book, cs)
    ensures KnownServers(book, Ids(cs), weight, group) == Weighted(cs, weight, group)
  {
    if cs != [] {
      assert cs[0] in cs;
      assert Ids(cs)[1..] == Ids(cs[1..]);
      KnownWeighted(book, cs[1..], weight, group);
      assert Weighted(cs, weight, group) == Weighted(cs, weight, group)[..1] + Weighted(cs[1..], weight, group);
    }
  }

  /** The servers a restart writes when every container is still where it was. */
  function RestartServers(d: Deployment, weight: int): seq<Server> {
    (if weight < 100 then Weighted(d.olds, 100 - weight, "stable") else []) + Weighted(d.news, weight, "canary")
  }

  lemma RestartExactly(d: Deployment, ds: DeploymentState, book: map<string, string>, weight: int)
    requires |d.olds| > 0 && |d.news| > 0
    requires Knows(book, d.olds) && Knows(book, d.news)
    requires ds.status == InProgress && ds.stable == Ids(d.olds) && ds.canary == Ids(d.news)
    requires RestartWeight(d.config, ds) == Some(weight)
    ensures RestartUpstream(d.service, d.config, ds, book)
         == Some(ApplySettings(d.config, Upstream(d.service, d.config.upstreamName, RestartServers(d, weight),
           d.config.affinity, 0, "", [], "")))
  {
    KnownWeighted(book, d.olds, 100 - weight, "stable");
    KnownWeighted(book, d.news, weight, "canary");
  }

  /** With a weight between 1 and 99 on record, and every container still where
      it was, a restart writes exactly the split config of that weight. */
  lemma RestartIsSplit(d: Deployment, ds: DeploymentState, book: map<string, string>)
    requires |d.olds| > 0 && |d.news| > 0
    requires Knows(book, d.olds) && Knows(book, d.news)
    requires ds.status == InProgress && ds.stable == Ids(d.olds) && ds.canary == Ids(d.news) && 1 <= ds.weight <= 99
    ensures RestartUpstream(d.service, d.config, ds, book).Some?
    ensures Resolved(RestartUpstream(d.service, d.config, ds, book).value) == Resolved(SplitUpstream(d, ds.weight))
  {
    RestartExactly(d, ds, book, ds.weight);
  }

  /** With 100 on record a restart lists the new containers alone, with equal
      weights. After a watched switch that is the same list of servers as the
      proxy already has, with no weights; a split at 100 leaves out the old
      servers that the proxy still has. */
  lemma RestartAtHundred(d: Deployment, ds: DeploymentState, book: map<string, string>)
    requires |d.olds| > 0 && |d.news| > 0
    requires Knows(book, d.olds) && Knows(book, d.news)
    requires ds.status == InProgress && ds.stable == Ids(d.olds) && ds.canary == Ids(d.news) && ds.weight == 100
    ensures RestartUpstream(d.service, d.config, ds, book).Some?
    ensures Resolved(RestartUpstream(d.service, d.config, ds, book).value) ==
      Resolved(Base(d, d.config.affinity, Weighted(d.news, 100, "canary")))
    ensures RestartUpstream(d.service, d.config, ds, book).value.servers == Weighted(d.news, 100, "canary")
    ensures Live(RestartUpstream(d.service, d.config, ds, book).value.servers) ==
      Live(NewOnly(d, d.config.affinity).servers)
    ensures Live(RestartUpstream(d.service, d.config, ds, book).value.servers) != Live(SplitUpstream(d, 100).servers)
  {
    RestartExactly(d, ds, book, 100);
    assert RestartServers(d, 100) == Weighted(d.news, 100, "canary");
    LiveWeighted(d.news, 100, "canary");
    LiveOfNewOnly(d, d.config.affinity);
    LiveOfSplit(d, 100);
    assert |Addrs(d.olds + d.news)| != |Addrs(d.news)|;
  }

  /** Before the switch is on record (weight 0) the proxy sends everyone to the
      old containers, but a restart already gives the new ones a share, in every
      blue-green and canary release: the one that the settings start them with. */
  lemma RestartBeforeTheSwitch(d: Deployment, ds: DeploymentState, book: map<string, string>)
    requires |d.olds| > 0 && |d.news| > 0 && d.config.Validated()
    requires Knows(book, d.olds) && Knows(book, d.news)
    requires ds.status == InProgress && ds.stable == Ids(d.olds) && ds.canary == Ids(d.news) && ds.weight == 0
    requires ds.strategy == "canary" || ds.strategy == "blue-green"
    ensures var u := RestartUpstream(d.service, d.config, ds, book);
      var first := if ds.strategy == "canary" then d.config.canaryStart else d.config.greenWeight;
      && u.Some?
      && (first < 100 ==>
            && Resolved(u.value) == Resolved(SplitUpstream(d, first))
            && Live(u.value.servers) == Addrs(d.olds + d.news))
      && (first == 100 ==>
            && Resolved(u.value) == Resolved(Base(d, d.config.affinity, Weighted(d.news, 100, "canary")))
            && Live(u.value.servers) == Addrs(d.news))
  {
    hide RestartUpstream, ApplySettings, SplitUpstream, Base, RestartServers, KnownServers, Live, Resolved;
    var first := if ds.strategy == "canary" then d.config.canaryStart else d.config.greenWeight;
    RestartExactly(d, ds, book, first);
    RestartResolves(d, first);
  }

  lemma RestartResolves(d: Deployment, weight: int)
    requires 1 <= weight <= 100
    ensures var u := ApplySettings(d.config, Upstream(d.service, d.config.upstreamName, RestartServers(d, weight),
                                                      d.config.affinity, 0, "", [], ""));
      && (weight < 100 ==>
            Resolved(u) == Resolved(SplitUpstream(d, weight)) && Live(u.servers) == Addrs(d.olds + d.news))
      && (weight == 100 ==>
            && Resolved(u) == Resolved(Base(d, d.config.affinity, Weighted(d.news, 100, "canary")))
            && Live(u.servers) == Addrs(d.news))
  {
    hide Live, Weighted;
    if weight < 100 {
      assert RestartServers(d, weight) == SplitUpstream(d, weight).servers;
      LiveOfSplit(d, weight);
    } else {
      assert RestartServers(d, weight) == Weighted(d.news, weight, "canary");
      LiveWeighted(d.news, weight, "canary");
    }
  }

  /** When a restart has no config of its own to write: the release is not open on
      record or lists no old or no new container, its weight is on no record and its
      strategy starts with none, the weight is no percentage, or no listed container
      that would get a share has an address. */
  lemma NothingToRestart(service: string, config: Settings, ds: DeploymentState, book: map<string, string>)
    ensures RestartUpstream(service, config, ds, book).None? <==>
      || ds.status != InProgress || ds.stable == [] || ds.canary == []
      || ds.weight > 100
      || (ds.weight <= 0 && ds.strategy != "canary" && ds.strategy != "blue-green")
      || (ds.weight <= 0 && ds.strategy == "canary" && !(1 <= config.canaryStart <= 100))
      || (ds.weight <= 0 && ds.strategy == "blue-green" && !(1 <= config.greenWeight <= 100))
      || ((forall i :: 0 <= i < |ds.canary| ==> ds.canary[i] !in book)
          && ((forall i :: 0 <= i < |ds.stable| ==> ds.stable[i] !in book)
              || (if ds.weight > 0 then ds.weight
                  else if ds.strategy == "canary" then config.canaryStart else config.greenWeight) == 100))
  {
    KnownNone(book, ds.stable);
    KnownNone(book, ds.canary);
  }

  lemma {:induction false} KnownNone(book: map<string, string>, ids: seq<string>)
    ensures forall weight, group ::
      KnownServers(book, ids, weight, group) == [] <==> forall i :: 0 <= i < |ids| ==> ids[i] !in book
  {
    if ids != [] {
      KnownNone(book, ids[1..]);
      forall weight, group
        ensures KnownServers(book, ids, weight, group) == [] <==> forall i :: 0 <= i < |ids| ==> ids[i] !in book
      {
        assert forall i :: 0 < i < |ids| ==> ids[i] == ids[1..][i - 1];
      }
    }
  }

  /** All servers that a list of ids gives are of one kind, each with the address of a
      container on the list. */
  lemma {:induction false} KnownAreAlike(book: map<string, string>, ids: seq<string>, weight: int, group: string)
    ensures forall server :: server in KnownServers(book, ids, weight, group) ==>
      && server == Server(server.addr, weight, false, false, group)
      && exists id :: id in ids && id in book && book[id] == server.addr
  {
    if ids != [] {
      KnownAreAlike(book, ids[1..], weight, group);
      forall server | server in KnownServers(book, ids, weight, group)
        ensures server == Server(server.addr, weight, false, false, group)
        ensures exists id :: id in ids && id in book && book[id] == server.addr
      {
        if server in KnownServers(book, ids[1..], weight, group) {
          var id :| id in ids[1..] && id in book && book[id] == server.addr;
          assert id in ids;
        } else {
          assert ids[0] in ids && ids[0] in book && book[ids[0]] == server.addr;
        }
      }
    }
  }
}
