/** Steps the strategies share: applying a config, waiting for the new
    containers, promoting them, removing containers and going back. */
module SharedSteps {
  import opened Rollout
  import opened Machine
  import opened Platform

  /** The run is under way and at this point. */
  ghost predicate AtPoint(w: Platform, d: Deployment, entry: Point, p: Point)
    reads w
  {
    w.Valid() && Path(d, entry, w.log) == Some(p)
  }

  /** The settings ask for something that the deployment has no means of doing. */
  predicate Lacks(d: Deployment) {
    d.strategy.BlueGreen? && ((d.config.checkCommand != "" && !d.hasChecks) || (d.config.watch && !d.hasRequests))
  }

  /** The run ended early, and for a reason: the effect at its last point failed,
      it was barred from going on, or the release lacks what its settings ask for. */
  ghost predicate CutShort(w: Platform, d: Deployment, entry: Point)
    reads w
  {
    && w.Valid() && Short(Path(d, entry, w.log))
    && (Path(d, entry, w.log).value.Failed? || w.bars > 0 || Lacks(d))
  }

  /** Stages a config and reloads the proxy with it. */
  method ApplyConfig(w: Platform, u: Upstream) returns (ok: bool)
    requires w.Valid()
    modifies w
    ensures w.Valid() && w.start == old(w.start) && w.bars == old(w.bars)
    ensures w.log == Then(old(w.log), Step(Configure(u), ok))
  {
    ok := w.GenerateConfig(u);
    if ok {
      ok := w.Reload();
    }
  }

  method WaitAllHealthy(w: Platform, d: Deployment) returns (ok: bool)
    requires AtPoint(w, d, Start, HealthyFrom(d, 0))
    modifies w
    ensures w.start == old(w.start)
    ensures if ok then AtPoint(w, d, Start, HealthyFrom(d, |d.news|)) else CutShort(w, d, Start)
  {
    hide Path, Follow, Edge, LooseEdge, Replay, Short, Lacks;
    ok := true;
    for i := 0 to |d.news|
      invariant ok && w.start == old(w.start)
      invariant AtPoint(w, d, Start, HealthyFrom(d, i))
    {
      HealthyEdge(d, i);
      ok := w.WaitHealthy(d.news[i].id);
      Along(d, Start, w.log, Healthy(i), HealthyFrom(d, i + 1));
      if !ok { return; }
    }
  }

  /** Stops and removes each container; failures are noted and passed over. */
  method RemoveContainers(w: Platform, d: Deployment, cs: seq<Container>, ghost entry: Point, ghost why: Why)
    requires AtPoint(w, d, entry, SweepFrom(d, why, 0))
    requires cs == Swept(d, why)
    modifies w
    ensures w.start == old(w.start) && w.bars == old(w.bars)
    ensures AtPoint(w, d, entry, AfterSweep(why))
  {
    hide Path, Follow, Edge, LooseEdge, Replay, Short, Lacks;
    for j := 0 to |cs|
      invariant w.start == old(w.start) && w.bars == old(w.bars)
      invariant AtPoint(w, d, entry, SweepFrom(d, why, j))
    {
      SweepEdges(d, why, j);
      var _ := w.Stop(cs[j].id);
      Despite(d, entry, w.log, Sweep(why, j, false), Sweep(why, j, true));
      var _ := w.Remove(cs[j].id);
      Despite(d, entry, w.log, Sweep(why, j, true), SweepFrom(d, why, j + 1));
    }
  }

  /** Appends one unweighted server for each container. */
  method ListServers(servers: seq<Server>, cs: seq<Container>, backup: bool) returns (r: seq<Server>)
    ensures r == servers + if backup then Backups(cs) else Plain(cs)
  {
    r := servers;
    for i := 0 to |cs|
      invariant r == servers + if backup then Backups(cs[..i]) else Plain(cs[..i])
    {
      r := r + [Server(cs[i].addr, 0, false, backup, "")];
    }
    assert cs[..|cs|] == cs;
  }

  method ListWeighted(servers: seq<Server>, cs: seq<Container>, weight: int, group: string) returns (r: seq<Server>)
    ensures r == servers + Weighted(cs, weight, group)
  {
    r := servers;
    for i := 0 to |cs|
      invariant r == servers + Weighted(cs[..i], weight, group)
    {
      r := r + [Server(cs[i].addr, weight, false, false, group)];
    }
    assert cs[..|cs|] == cs;
  }

  method NewOnlyUpstream(d: Deployment, affinity: string) returns (u: Upstream)
    ensures u == NewOnly(d, affinity)
  {
    var servers := ListServers([], d.news, false);
    assert servers == Plain(d.news);
    u := ApplySettings(d.config, Upstream(d.service, d.UpstreamName(), servers, affinity, 0, "", [], ""));
  }

  method OldOnlyUpstream(d: Deployment, affinity: string) returns (u: Upstream)
    ensures u == OldOnly(d, affinity)
  {
    var servers := ListServers([], d.olds, false);
    assert servers == Plain(d.olds);
    u := ApplySettings(d.config, Upstream(d.service, d.UpstreamName(), servers, affinity, 0, "", [], ""));
  }

  method SplitWeightUpstream(d: Deployment, weight: int) returns (u: Upstream)
    ensures u == SplitUpstream(d, weight)
  {
    var servers := ListWeighted([], d.olds, 100 - weight, "stable");
    servers := ListWeighted(servers, d.news, weight, "canary");
    assert servers == Weighted(d.olds, 100 - weight, "stable") + Weighted(d.news, weight, "canary");
    u := ApplySettings(d.config, Upstream(d.service, d.UpstreamName(), servers, d.config.affinity, 0, "", [], ""));
  }

  method PromotionUpstream(d: Deployment, affinity: string) returns (u: Upstream)
    ensures u == BackupUpstream(d, affinity)
  {
    var servers := ListServers([], d.news, false);
    servers := ListServers(servers, d.olds, true);
    assert servers == Plain(d.news) + Backups(d.olds);
    u := ApplySettings(d.config, Upstream(d.service, d.UpstreamName(), servers, affinity, 0, "", [], ""));
  }

  /** Routes everyone to the new containers with the old ones as backup, drains,
      lists the new ones alone, and removes the old ones. */
  method PromoteAndDrain(w: Platform, d: Deployment, drainAffinity: string) returns (ok: bool)
    requires AtPoint(w, d, Start, Promote) && drainAffinity == DrainAffinity(d)
    modifies w
    ensures w.start == old(w.start)
    ensures if ok then AtPoint(w, d, Start, Finish) else CutShort(w, d, Start)
  {
    hide Path, Follow, Edge, LooseEdge, Replay, Short, Lacks, BackupUpstream, NewOnly;
    PromoteEdges(d);
    var final := PromotionUpstream(d, drainAffinity);
    ok := ApplyConfig(w, final);
    Along(d, Start, w.log, Promote, PromoteDrain);
    if !ok { return; }

    ok := w.Wait(d.config.drain);
    Along(d, Start, w.log, PromoteDrain, PromotePlain);
    if !ok { return; }

    var stable := NewOnlyUpstream(d, "");
    ok := ApplyConfig(w, stable);
    Along(d, Start, w.log, PromotePlain, SweepFrom(d, Retire, 0));
    if !ok { return; }

    RemoveContainers(w, d, d.olds, Start, Retire);
  }

  lemma ClosedState(d: Deployment, reason: string)
    ensures DeploymentState(d.service, Idle, d.strategy.Tag(), 0, Ids(d.olds), [], reason, "", "") ==
      SettledState(d, d.olds, reason)
  {
  }

  /** Points traffic back at the old containers, with whatever provider there is. */
  method PointBack(w: Platform, d: Deployment, reason: string, ghost entry: Point) returns (ok: bool)
    requires AtPoint(w, d, entry, Roll(reason))
    modifies w
    ensures w.start == old(w.start) && w.bars == old(w.bars)
    ensures if ok then AtPoint(w, d, entry, RollDrain(reason)) else CutShort(w, d, entry)
    ensures !ok ==> w.log.Then? && !w.log.last.ok
  {
    hide Path, Follow, Edge, LooseEdge, Replay, Short, Lacks, OldOnly;
    RollEdges(d, reason);
    if d.hasProxy {
      var upstream := OldOnlyUpstream(d, "");
      ok := ApplyConfig(w, upstream);
      Along(d, entry, w.log, Roll(reason), RollDrain(reason));
    } else {
      ok := w.SkipConfig();
      Go(d, entry, w.log, Roll(reason), RollDrain(reason));
    }
  }

  /** Points traffic back at the old containers, tears down the new ones and
      saves an idle state that says why. */
  method RollbackWithFailure(w: Platform, d: Deployment, tag: string, reason: string,
                             ghost entry: Point) returns (ok: bool)
    requires AtPoint(w, d, entry, Roll(reason)) && tag == d.strategy.Tag()
    modifies w
    ensures w.start == old(w.start)
    ensures if ok then AtPoint(w, d, entry, RolledBack(reason)) else CutShort(w, d, entry)
    ensures !ok ==> w.log.Then? && !w.log.last.ok
    ensures w.bars == old(w.bars)
  {
    hide Path, Follow, Edge, LooseEdge, Replay, Short, Lacks, OldOnly, SettledState;
    RollEdges(d, reason);
    ok := PointBack(w, d, reason, entry);
    if !ok { return; }

    ok := w.Wait(d.config.drain);
    Along(d, entry, w.log, RollDrain(reason), SweepFrom(d, GiveBack(reason), 0));
    if !ok { return; }

    RemoveContainers(w, d, d.news, entry, GiveBack(reason));

    var ds := DeploymentState(d.service, Idle, tag, 0, Ids(d.olds), [], reason, "", "");
    ClosedState(d, reason);
    ok := w.Save(ds);
    Along(d, entry, w.log, CloseRoll(reason), RolledBack(reason));
  }
}
