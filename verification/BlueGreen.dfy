/** The blue-green strategy: a full new set, then one switch. */
module BlueGreenStrategy {
  import opened Requests
  import opened Rollout
  import opened Machine
  import opened Platform
  import opened SharedSteps

  /** The token of this release: the fixed one, a fresh random one for `auto`,
      or none. Drawing a random one can fail. */
  method NewPreviewToken(w: Platform, config: Settings) returns (ok: bool, token: string)
    modifies w`bars
    ensures w.bars == old(w.bars) + if ok then 0 else 1
    ensures ok && config.previewToken != "auto" ==> token == config.previewToken
    ensures ok && config.previewToken == "auto" ==> token != ""
  {
    if config.previewToken != "auto" {
      return true, config.previewToken;
    }
    ok := w.MayGoOn();
    token := *;
    token := if token == "" then "0" else token;
  }

  /** Lets the new containers answer on the preview, with the old ones serving
      everyone else. */
  method PublishPreview(w: Platform, d: Deployment, ds0: DeploymentState)
    returns (ok: bool, token: string, ds: DeploymentState)
    requires ds0 == FreshState(d)
    requires AtPoint(w, d, Start, if d.config.previewToken == "" then Publish("") else Token)
    modifies w
    ensures w.start == old(w.start)
    ensures if ok then AtPoint(w, d, Start, CheckFrom(d, 0, token)) else CutShort(w, d, Start)
    ensures ok ==> ds == ds0.(token := ds.token, previewURL := ds.previewURL)
  {
    hide Path, Follow, Edge, LooseEdge, Replay, Short, OldOnly, PreviewUpstream;
    Unfinished(if d.config.previewToken == "" then Publish("") else Token);
    ds := ds0;
    ok, token := NewPreviewToken(w, d.config);
    if !ok { return; }
    PreviewEdges(d, token);
    if token != "" {
      ds := ds.(token := token, previewURL := d.config.previewBase);
      assert ds == TokenState(d, token);
      ok := w.Save(ds);
      Along(d, Start, w.log, Token, Publish(token));
      if !ok { return; }
    }
    var upstream := BlueOnlyUpstream(d);
    var preview := ListServers([], d.news, false);
    assert preview == Plain(d.news);
    upstream := upstream.(previewToken := token, preview := preview);
    assert upstream == PreviewUpstream(d, token) by { PreviewIs(d, token, upstream); }
    ok := ApplyConfig(w, upstream);
    Along(d, Start, w.log, Publish(token), CheckFrom(d, 0, token));
  }

  lemma PreviewIs(d: Deployment, token: string, u: Upstream)
    requires u == OldOnly(d, d.config.affinity).(previewToken := token, preview := Plain(d.news))
    ensures u == PreviewUpstream(d, token)
  {
  }

  method BlueOnlyUpstream(d: Deployment) returns (u: Upstream)
    ensures u == OldOnly(d, d.config.affinity)
  {
    u := OldOnlyUpstream(d, d.config.affinity);
  }

  /** Runs the check against each new container; an empty reason means all passed. */
  method RunChecks(w: Platform, d: Deployment, token: string) returns (ok: bool, reason: string)
    requires d.strategy.BlueGreen? && d.config.checkCommand != "" && AtPoint(w, d, Start, CheckFrom(d, 0, token))
    modifies w
    ensures w.start == old(w.start)
    ensures !ok ==> CutShort(w, d, Start)
    ensures ok ==> AtPoint(w, d, Start, if reason == "" then Cutover else UndoFrom(d, reason))
  {
    hide Path, Follow, Edge, LooseEdge, Replay, Short;
    Unfinished(CheckFrom(d, 0, token));
    if !d.hasChecks {
      return false, "";
    }
    for j := 0 to |d.news|
      invariant w.start == old(w.start) && AtPoint(w, d, Start, CheckFrom(d, j, token))
    {
      var ran: bool;
      ran, reason := w.RunCheck(d.news[j].id, token);
      Unfinished(CheckFrom(d, j, token));
      if !ran {
        return false, "";
      }
      CheckEdge(d, j, token, reason);
      Go(d, Start, w.log, Check(j, token), if reason == "" then CheckFrom(d, j + 1, token) else UndoFrom(d, reason));
      if reason != "" {
        return true, reason;
      }
    }
    return true, "";
  }

  /** Takes the preview away before an undo; a failure is noted and passed over. */
  method WithdrawPreview(w: Platform, d: Deployment, reason: string)
    requires AtPoint(w, d, Start, UndoFrom(d, reason))
    modifies w
    ensures w.start == old(w.start)
    ensures AtPoint(w, d, Start, SweepFrom(d, Undo(reason), 0))
  {
    hide Path, Follow, Edge, LooseEdge, Replay, Short, OldOnly;
    if !d.config.HasPreview() {
      return;
    }
    UndoEdges(d, reason);
    var upstream := BlueOnlyUpstream(d);
    var _ := ApplyConfig(w, upstream);
    Despite(d, Start, w.log, Withdraw(reason), SweepFrom(d, Undo(reason), 0));
  }

  /** Removes the new containers after a failed check; the old ones never stopped
      serving. */
  method UndoBeforeSwitch(w: Platform, d: Deployment, ds0: DeploymentState, reason: string) returns (r: Outcome)
    requires ds0 == FreshState(d).(token := ds0.token, previewURL := ds0.previewURL)
    requires AtPoint(w, d, Start, UndoFrom(d, reason))
    modifies w
    ensures w.start == old(w.start)
    ensures if r == Outcome.Undone(reason) then AtPoint(w, d, Start, RolledBack(reason))
      else r.Failure? && CutShort(w, d, Start)
  {
    hide Path, Follow, Edge, LooseEdge, Replay, Short;
    WithdrawPreview(w, d, reason);
    RemoveContainers(w, d, d.news, Start, Undo(reason));
    UndoEdges(d, reason);
    var ds := ds0.(status := Idle, token := "", previewURL := "", stable := Ids(d.olds), canary := [],
      failure := reason);
    assert ds == UndoneState(d, reason);
    var ok := w.Save(ds);
    Along(d, Start, w.log, CloseUndo(reason), RolledBack(reason));
    if !ok { return Failure; }
    return Outcome.Undone(reason);
  }

  /** Whether a watched window may end well: the errors stay within the limit and the
      log does not break off, or the window was over first. */
  predicate Passes(d: Deployment, seen: Delivery) {
    seen.over || (Errors(d, seen.requests) <= d.config.rules.maxErrors && !seen.lost)
  }

  /** Watches the new containers for the window, then removes the old ones; too
      many errors, or losing sight of them, sends users back instead. */
  method SettleAfterWindow(w: Platform, d: Deployment, watch: ErrorWatch, seen: Delivery) returns (r: Outcome)
    requires d.strategy.BlueGreen? && AtPoint(w, d, Start, Window)
    requires watch.Valid() && watch.rules == d.config.rules && watch.greens == (set c | c in d.news :: c.addr) &&
      watch.delivered == []
    modifies w, watch
    ensures w.start == old(w.start)
    ensures r.Ok? ==> AtPoint(w, d, Start, Finish)
    ensures r.Failure? ==> CutShort(w, d, Start)
    ensures r.Undone? ==> AtPoint(w, d, Start, RolledBack(r.reason))
    ensures r.Ok? ==> Passes(d, seen)
    ensures r.Undone? ==> seen.lost || Errors(d, seen.requests) > d.config.rules.maxErrors
  {
    hide Path, Follow, Edge, LooseEdge, Replay, Short;
    var requests := seen.requests;
    for i := 0 to |requests|
      invariant watch.Valid() && watch.delivered == requests[..i]
      invariant AtPoint(w, d, Start, Window) && w.start == old(w.start)
    {
      watch.Observe(requests[i]);
    }
    assert requests[..|requests|] == requests;
    var cancelled: bool := *;
    var ok, tooMany, blind := watch.Wait(seen.lost, seen.over, cancelled);
    var end := if tooMany then TooManyErrors else if blind then Blind else Clean;
    var reason: string := *;
    WindowEdge(d, requests, end, reason, ok);
    w.EndWindow(requests, end, reason, ok);
    Go(d, Start, w.log, Window, if !ok then Failed(Window) else if end.Clean? then SweepFrom(d, Retire, 0)
      else Roll(reason));
    if !ok {
      EndedBy(Window);
      return Failure;
    }
    if !end.Clean? {
      ok := RollbackWithFailure(w, d, "blue-green", reason, Start);
      if !ok { return Failure; }
      return Outcome.Undone(reason);
    }
    RemoveContainers(w, d, d.olds, Start, Retire);
    return Ok;
  }

  /** Lets the new containers take their share for the soak time, then promotes. */
  method SettleAfterSoak(w: Platform, d: Deployment) returns (ok: bool)
    requires d.strategy.BlueGreen? && AtPoint(w, d, Start, Soak)
    modifies w
    ensures w.start == old(w.start)
    ensures if ok then AtPoint(w, d, Start, Finish) else CutShort(w, d, Start)
  {
    hide Path, Follow, Edge, LooseEdge, Replay, Short;
    CutEdges(d);
    ok := w.Wait(d.config.soak);
    Along(d, Start, w.log, Soak, Promote);
    if !ok { return; }
    ok := PromoteAndDrain(w, d, "");
  }

  /** From healthy new containers to the recorded switch or an undo. */
  method Prepare(w: Platform, d: Deployment, ds0: DeploymentState) returns (r: Outcome, ds: DeploymentState)
    requires d.strategy.BlueGreen? && ds0 == FreshState(d)
    requires AtPoint(w, d, Start, HealthyFrom(d, |d.news|))
    modifies w
    ensures w.start == old(w.start)
    ensures r.Ok? ==>
      AtPoint(w, d, Start, Cutover) && ds == FreshState(d).(token := ds.token, previewURL := ds.previewURL)
    ensures r.Failure? ==> CutShort(w, d, Start)
    ensures r.Undone? ==> AtPoint(w, d, Start, RolledBack(r.reason))
  {
    hide Path, Follow, Edge, LooseEdge, Replay, Short;
    ds := ds0;
    var token := "";
    if d.config.HasPreview() {
      var ok: bool;
      ok, token, ds := PublishPreview(w, d, ds);
      if !ok { return Failure, ds; }
    }
    if d.config.checkCommand != "" {
      var ok, reason := RunChecks(w, d, token);
      if !ok { return Failure, ds; }
      if reason != "" {
        r := UndoBeforeSwitch(w, d, ds, reason);
        return r, ds;
      }
    }
    return Ok, ds;
  }

  /** Moves traffic and saves how much of it moved: all of it when a window will
      watch for errors, the configured weight otherwise. */
  method Switch(w: Platform, d: Deployment, ds0: DeploymentState) returns (ok: bool, ds: DeploymentState)
    requires d.strategy.BlueGreen? && AtPoint(w, d, Start, Cutover)
    requires ds0 == FreshState(d).(token := ds0.token, previewURL := ds0.previewURL)
    modifies w
    ensures w.start == old(w.start)
    ensures if ok then AtPoint(w, d, Start, if d.config.watch then Window else Soak) else CutShort(w, d, Start)
    ensures ok ==> ds == WeightState(d, CutWeight(d))
  {
    hide Path, Follow, Edge, LooseEdge, Replay, Short, SplitUpstream, NewOnly;
    CutEdges(d);
    ds := ds0;
    var cut := SplitWeightUpstream(d, d.config.greenWeight);
    if d.config.watch {
      cut := NewOnlyUpstream(d, d.config.affinity);
    }
    assert cut == CutUpstream(d);
    ok := ApplyConfig(w, cut);
    Along(d, Start, w.log, Cutover, RecordCut);
    if !ok { return; }

    ds := ds.(token := "", previewURL := "", weight := d.config.greenWeight);
    if d.config.watch {
      ds := ds.(weight := 100);
    }
    assert ds == WeightState(d, CutWeight(d));
    ok := w.Save(ds);
    Along(d, Start, w.log, RecordCut, if d.config.watch then Window else Soak);
  }

  /** Every run is a path of the control flow from its start, whatever fails; it
      succeeds exactly when the path reaches its end, and is undone exactly when
      the old containers serve again. With a window it succeeds only if that ended well. */
  method Execute(w: Platform, d: Deployment, seen: Delivery) returns (r: Outcome)
    requires d.strategy.BlueGreen? && 0 <= d.config.rules.maxErrors
    modifies w
    ensures w.start == old(w.Now())
    ensures r.Ok? ==> AtPoint(w, d, Start, Done)
    ensures r.Failure? ==> CutShort(w, d, Start)
    ensures r.Undone? ==> AtPoint(w, d, Start, RolledBack(r.reason))
    ensures r.Ok? && d.config.watch ==> Passes(d, seen)
  {
    hide Path, Follow, Edge, LooseEdge, Replay, Short, SplitUpstream, NewOnly;
    w.NextRun();
    Begin(d, Start);
    StartEdges(d);
    var ds := DeploymentState(d.service, InProgress, "blue-green", 0, Ids(d.olds), Ids(d.news), "", "", "");
    assert ds == FreshState(d);
    var ok := w.Save(ds);
    Along(d, Start, w.log, Start, HealthyFrom(d, 0));
    if !ok { return Failure; }

    ok := WaitAllHealthy(w, d);
    if !ok { return Failure; }
    r, ds := Prepare(w, d, ds);
    if !r.Ok? { return; }

    Unfinished(Cutover);
    var watch: ErrorWatch? := null;
    if d.config.watch {
      if !d.hasRequests { return Failure; }
      watch := new ErrorWatch(d.config.rules, Addrs(d.news));
      assert (set a | a in Addrs(d.news)) == set c | c in d.news :: c.addr by { GreenAddrs(d); }
      var subscribed := w.MayGoOn();
      if !subscribed { return Failure; }
    }

    ok, ds := Switch(w, d, ds);
    if !ok { return Failure; }

    if watch != null {
      r := SettleAfterWindow(w, d, watch, seen);
      if !r.Ok? { return; }
    } else {
      ok := SettleAfterSoak(w, d);
      if !ok { return Failure; }
    }

    ds := ds.(status := Idle, weight := 100, stable := Ids(d.news), canary := []);
    assert ds == FinishedState(d);
    ok := w.Save(ds);
    Along(d, Start, w.log, Finish, Done);
    if !ok { return Failure; }
    return Ok;
  }

  lemma GreenAddrs(d: Deployment)
    ensures (set a | a in Addrs(d.news)) == set c | c in d.news :: c.addr
  {
    forall c | c in d.news ensures c.addr in Addrs(d.news) {
      var i :| 0 <= i < |d.news| && d.news[i] == c;
      assert Addrs(d.news)[i] == c.addr;
    }
    forall a | a in Addrs(d.news) ensures a in set c | c in d.news :: c.addr {
      var i :| 0 <= i < |d.news| && Addrs(d.news)[i] == a;
      assert d.news[i] in d.news;
    }
  }
}
