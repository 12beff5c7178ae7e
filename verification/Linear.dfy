/** The linear strategy: one container replaced at a time. */
module LinearStrategy {
  import opened Rollout
  import opened Machine
  import opened Platform
  import opened SharedSteps

  method BuildUpstream(d: Deployment, step: nat) returns (u: Upstream)
    requires step < d.Replacements()
    ensures u.servers == StepServers(d, step)
    ensures ApplySettings(d.config, u) == StepUpstream(d, step)
  {
    var servers := [];
    var j := 0;
    while j <= step
      invariant 0 <= j <= step + 1
      invariant servers == Plain(d.news[..j])
    {
      servers := servers + [Server(d.news[j].addr, 0, false, false, "")];
      j := j + 1;
    }
    servers := servers + [Server(d.olds[step].addr, 0, true, false, "")];
    ghost var head := servers;
    j := step + 1;
    while j < |d.olds|
      invariant step + 1 <= j <= |d.olds|
      invariant servers == head + Plain(d.olds[step + 1..j])
    {
      servers := servers + [Server(d.olds[j].addr, 0, false, false, "")];
      j := j + 1;
    }
    assert d.olds[step + 1..j] == d.olds[step + 1..];
    u := Upstream(d.service, d.UpstreamName(), servers, d.config.affinity, 0, "", [], "");
  }

  method BuildFinalUpstream(d: Deployment, affinity: string) returns (u: Upstream)
    ensures ApplySettings(d.config, u) == NewOnly(d, affinity)
  {
    var servers := [];
    for i := 0 to |d.news|
      invariant servers == Plain(d.news[..i])
    {
      servers := servers + [Server(d.news[i].addr, 0, false, false, "")];
    }
    assert d.news[..|d.news|] == d.news;
    u := Upstream(d.service, d.UpstreamName(), servers, affinity, 0, "", [], "");
  }

  /** Replaces old container `i` by new container `i` and records it. */
  method ReplaceOne(w: Platform, d: Deployment, i: nat, ds0: DeploymentState) returns (ok: bool, ds: DeploymentState)
    requires i < d.Replacements() && ds0 == FreshState(d).(stable := ds0.stable)
    requires AtPoint(w, d, Start, Swap(i, Health))
    modifies w
    ensures w.start == old(w.start)
    ensures if ok then AtPoint(w, d, Start, SwapFrom(d, i + 1)) && ds == SwapState(d, i + 1) else CutShort(w, d, Start)
  {
    hide Path, Follow, Edge, LooseEdge, Replay, Short, ApplySettings, StepUpstream, Base, Weighted;
    SwapEdges(d, i);
    ds := ds0;
    ok := w.WaitHealthy(d.news[i].id);
    Along(d, Start, w.log, Swap(i, Health), Swap(i, Route));
    if !ok { return; }

    var upstream := BuildUpstream(d, i);
    ok := ApplyConfig(w, ApplySettings(d.config, upstream));
    Along(d, Start, w.log, Swap(i, Route), Swap(i, DrainOld));
    if !ok { return; }

    ok := w.Wait(d.config.drain);
    Along(d, Start, w.log, Swap(i, DrainOld), Swap(i, StopOld));
    if !ok { return; }

    var _ := w.Stop(d.olds[i].id);
    Despite(d, Start, w.log, Swap(i, StopOld), Swap(i, RemoveOld));
    var _ := w.Remove(d.olds[i].id);
    Despite(d, Start, w.log, Swap(i, RemoveOld), Swap(i, Record));

    ds := ds.(stable := Ids(d.news[..i + 1]));
    if i + 1 < d.Replacements() {
      ds := ds.(stable := ds.stable + Ids(d.olds[i + 1..]));
    }
    assert ds == SwapState(d, i + 1);
    ok := w.Save(ds);
    RecordEdge(d, i);
    Along(d, Start, w.log, Swap(i, Record), SwapFrom(d, i + 1));
  }

  /** Lists the new containers alone, with and then without affinity, and closes
      the release. */
  method Settle(w: Platform, d: Deployment, ds0: DeploymentState) returns (ok: bool)
    requires d.strategy.Linear? && ds0 == FreshState(d).(stable := ds0.stable)
    requires AtPoint(w, d, Start, Point.Settle)
    modifies w
    ensures w.start == old(w.start)
    ensures if ok then AtPoint(w, d, Start, Done) else CutShort(w, d, Start)
  {
    hide Path, Follow, Edge, LooseEdge, Replay, Short, ApplySettings, Base, Weighted;
    LinearEdges(d);
    var final := BuildFinalUpstream(d, d.config.affinity);
    ok := ApplyConfig(w, ApplySettings(d.config, final));
    Along(d, Start, w.log, Point.Settle, SettlePlain);
    if !ok { return; }

    final := BuildFinalUpstream(d, "");
    ok := ApplyConfig(w, ApplySettings(d.config, final));
    Along(d, Start, w.log, SettlePlain, Finish);
    if !ok { return; }

    var ds := ds0.(status := Idle, stable := Ids(d.news), canary := []);
    assert ds == FinishedState(d);
    ok := w.Save(ds);
    Along(d, Start, w.log, Finish, Done);
  }

  /** Every run is a path of the control flow from its start, whatever fails; it
      succeeds exactly when the path reaches its end. */
  method Execute(w: Platform, d: Deployment) returns (r: Outcome)
    requires d.strategy.Linear?
    modifies w
    ensures w.start == old(w.Now()) && !r.Undone?
    ensures if r.Ok? then AtPoint(w, d, Start, Done) else CutShort(w, d, Start)
  {
    hide Path, Follow, Edge, LooseEdge, Replay, Short, ApplySettings, Base, Weighted;
    LinearEdges(d);
    w.NextRun();
    var ds := DeploymentState(d.service, InProgress, "linear", 0, Ids(d.olds), [], "", "", "");
    assert ds == FreshState(d);
    Begin(d, Start);
    var ok := w.Save(ds);
    Along(d, Start, w.log, Start, SwapFrom(d, 0));
    if !ok { return Failure; }

    var replacements := if |d.olds| < |d.news| then |d.olds| else |d.news|;
    var i := 0;
    while i < replacements
      invariant 0 <= i <= replacements && w.start == old(w.Now())
      invariant AtPoint(w, d, Start, SwapFrom(d, i))
      invariant ds == FreshState(d).(stable := ds.stable)
    {
      Unfinished(SwapFrom(d, i));
      ok := w.MayGoOn();
      if !ok { return Failure; }
      ok, ds := ReplaceOne(w, d, i, ds);
      if !ok { return Failure; }
      i := i + 1;
    }

    if |d.news| > |d.olds| {
      i := |d.olds|;
      while i < |d.news|
        invariant |d.olds| <= i <= |d.news| && w.start == old(w.Now())
        invariant AtPoint(w, d, Start, ExtraFrom(d, i))
      {
        ExtraEdge(d, i);
        ok := w.WaitHealthy(d.news[i].id);
        Along(d, Start, w.log, Extra(i), ExtraFrom(d, i + 1));
        if !ok { return Failure; }
        i := i + 1;
      }
    }

    ok := Settle(w, d, ds);
    return if ok then Ok else Failure;
  }
}
