/** What a restarted controller does with a release it finds unfinished: roll it
    back from the saved state when a new container still runs, or else close it. */
module Recovery {
  import opened Rollout
  import opened Machine
  import opened Promise
  import opened Safety
  import opened Platform
  import opened SharedSteps
  import opened Outcomes
  import SideTraffic
  import MainTraffic

  /** The listed containers whose address `book` has, in listed order. */
  function Resolvable(ids: seq<string>, book: map<string, string>): seq<Container> {
    if ids == [] then []
    else
      var id := ids[|ids| - 1];
      Resolvable(ids[..|ids| - 1], book) + (if id in book then [Container(id, book[id])] else [])
  }

  function StrategyOf(tag: string): (r: Option<Strategy>)
    ensures r.Some? ==> r.value.Tag() == tag
  {
    if tag == "linear" then Some(Linear) else if tag == "blue-green" then Some(BlueGreen)
    else if tag == "canary" then Some(Canary) else None
  }

  /** The release as a rollback knows it: only what the saved state lists and
still resolves, and no settings; `proxied` is whether its provider has a proxy. */
  function RollbackOf(ds: DeploymentState, book: map<string, string>, proxied: bool): Deployment
    requires StrategyOf(ds.strategy).Some?
  {
    Deployment(ds.service, StrategyOf(ds.strategy).value, BLANK_SETTINGS,
               Resolvable(ds.stable, book), Resolvable(ds.canary, book), false, false, proxied)
  }

  method ResolveContainers(ids: seq<string>, book: map<string, string>) returns (cs: seq<Container>)
    ensures cs == Resolvable(ids, book)
  {
    cs := [];
    for i := 0 to |ids|
      invariant cs == Resolvable(ids[..i], book)
    {
      assert ids[..i + 1][..i] == ids[..i];
      if ids[i] in book {
        cs := cs + [Container(ids[i], book[ids[i]])];
      }
    }
    assert ids[..|ids|] == ids;
  }

  method AnyContainerRunning(w: Platform, ids: seq<string>) returns (r: bool)
    ensures r <==> exists i :: 0 <= i < |ids| && ids[i] in w.existing && ids[i] !in w.stopped
  {
    for i := 0 to |ids|
      invariant forall k :: 0 <= k < i ==> !(ids[k] in w.existing && ids[k] !in w.stopped)
    {
      if ids[i] !in w.existing {
        continue;
      }
      if ids[i] !in w.stopped {
        return true;
      }
    }
    return false;
  }

  /** What a rollback finds out about the service's provider: whether containers could
      be listed, the provider in the labels of each container of the service, where
      they can be read, and whether that provider can be built. */
  datatype Lookup = Lookup(listed: bool, labels: seq<Option<Provider>>, buildable: bool) {
    function Found(): Provider {
      if listed then FirstRead(labels) else NoProvider
    }

    predicate Proxied() {
      Found() != NoProvider
    }

    predicate Built() {
      !Proxied() || buildable
    }
  }

  function FirstRead(labels: seq<Option<Provider>>): Provider {
    if labels == [] then NoProvider
    else if labels[0].Some? then labels[0].value
    else FirstRead(labels[1..])
  }

  /** The labels at `i` are the first that can be read. */
  predicate IsFirstRead(labels: seq<Option<Provider>>, i: int) {
    0 <= i < |labels| && labels[i].Some? && forall j :: 0 <= j < i ==> labels[j].None?
  }

  method ResolveServiceConfig(lookup: Lookup) returns (provider: Provider)
    ensures provider == lookup.Found()
    ensures forall i :: lookup.listed && IsFirstRead(lookup.labels, i) ==> provider == lookup.labels[i].value
  {
    if !lookup.listed {
      return NoProvider;
    }
    for i := 0 to |lookup.labels|
      invariant FirstRead(lookup.labels) == FirstRead(lookup.labels[i..])
      invariant forall j :: 0 <= j < i ==> lookup.labels[j].None?
    {
      if lookup.labels[i].Some? {
        return lookup.labels[i].value;
      }
      assert lookup.labels[i..][1..] == lookup.labels[i + 1..];
    }
    return NoProvider;
  }

  /** A service behind a proxy is taken for one without exactly when its containers
      cannot be listed or none of their labels can be read. */
  lemma {:induction false} ProxiedExactly(lookup: Lookup)
    requires forall i :: 0 <= i < |lookup.labels| ==> lookup.labels[i] != Some(NoProvider)
    ensures lookup.Proxied() <==> lookup.listed && exists i :: 0 <= i < |lookup.labels| && lookup.labels[i].Some?
    decreases |lookup.labels|
  {
    if lookup.labels != [] {
      var rest := lookup.(labels := lookup.labels[1..]);
      ProxiedExactly(rest);
      if i :| 0 <= i < |lookup.labels| && lookup.labels[i].Some? {
        assert i > 0 ==> rest.labels[i - 1].Some?;
      }
    }
  }

  /** Rolls the saved release back. `book` has the containers that have an
      address now. Fails with nothing changed when its provider cannot be built,
      there is no release to roll back or its strategy is unknown, and otherwise
      only if the state cannot be read or an effect fails. */
  method Rollback(w: Platform, book: map<string, string>, lookup: Lookup) returns (ok: bool)
    modifies w
    ensures w.start == old(w.Now()) && old(w.bars) <= w.bars
    ensures !lookup.Built() || old(w.saved).status.Idle? || StrategyOf(old(w.saved).strategy).None? ==>
      !ok && w.Now() == old(w.Now())
    ensures lookup.Built() && !old(w.saved).status.Idle? && StrategyOf(old(w.saved).strategy).Some? ==>
      var d := RollbackOf(old(w.saved), book, lookup.Proxied());
      var entry := MarkRolling(old(w.saved));
      && (if ok then AtPoint(w, d, entry, RolledBack("")) else CutShort(w, d, entry))
      && (ok || w.bars > old(w.bars) || !AllTook(w.log))
  {
    hide Path, Follow, Edge, LooseEdge, Replay, Short, Resolvable, FirstRead;
    w.NextRun();
    ghost var before := w.saved;
    var provider := ResolveServiceConfig(lookup);
    var proxied := provider != NoProvider;
    if proxied && !lookup.buildable {
      return false;
    }
    var ds: DeploymentState;
    ok, ds := w.Load();
    if !ds.status.Idle? && StrategyOf(ds.strategy).Some? {
      Begin(RollbackOf(ds, book, proxied), MarkRolling(ds));
      Unfinished(MarkRolling(ds));
    }
    if !ok || ds.status.Idle? {
      return false;
    }
    var s := StrategyOf(ds.strategy);
    if s.None? {
      return false;
    }
    ds := ds.(status := RollingBack);
    ghost var d0 := RollbackOf(before, book, proxied);
    MarkEdge(d0, before);
    ok := w.Save(ds);
    Along(d0, MarkRolling(before), w.log, MarkRolling(before), Roll(""));
    if !ok { return; }

    var olds := ResolveContainers(ds.stable, book);
    var news := ResolveContainers(ds.canary, book);
    var d := Deployment(ds.service, s.value, BLANK_SETTINGS, olds, news, false, false, proxied);
    ok := RollbackWithFailure(w, d, ds.strategy, "", MarkRolling(before));
  }

  /** The state of a release that is closed without a rollback. */
  function ResetState(ds: DeploymentState): DeploymentState {
    ds.(status := Idle, token := "", previewURL := "", canary := [])
  }

  predicate Running(s: World, ids: seq<string>) {
    exists i :: 0 <= i < |ids| && ids[i] in s.existing && ids[i] !in s.stopped
  }

  /** A recovery from `s` that gets to its end with these effects: the release is
      closed when no new container runs, and rolled back otherwise. */
  ghost predicate Recovers(s: World, book: map<string, string>, proxied: bool, log: Log) {
    if !Running(s, s.saved.canary) then log == Then(Empty, Step(Save(ResetState(s.saved)), true))
    else
      && StrategyOf(s.saved.strategy).Some?
      && Path(RollbackOf(s.saved, book, proxied), MarkRolling(s.saved), log) == Some(RolledBack(""))
  }

  /** Whether a recovery has to roll back and cannot begin to. */
  predicate Stuck(s: World, lookup: Lookup) {
    Running(s, s.saved.canary) && (!lookup.Built() || StrategyOf(s.saved.strategy).None?)
  }

  /** Closes or rolls back a release found unfinished. Unless it cannot begin to, it
      gets to its end if the state can be read and no effect fails. */
  method RecoverService(w: Platform, book: map<string, string>, lookup: Lookup) returns (ok: bool)
    requires !w.saved.status.Idle?
    modifies w
    ensures w.start == old(w.Now()) && old(w.bars) <= w.bars
    ensures !Running(old(w.Now()), old(w.saved).canary) ==>
      w.Valid() && w.log == Then(Empty, Step(Save(
        old(w.saved).(status := Idle, token := "", previewURL := "", canary := [])), ok))
    ensures Running(old(w.Now()), old(w.saved).canary) && !Stuck(old(w.Now()), lookup) ==>
      var d := RollbackOf(old(w.saved), book, lookup.Proxied());
      var entry := MarkRolling(old(w.saved));
      if ok then AtPoint(w, d, entry, RolledBack("")) else CutShort(w, d, entry)
    ensures Stuck(old(w.Now()), lookup) ==> !ok && w.Now() == old(w.Now())
    ensures ok ==> w.Valid() && Recovers(old(w.Now()), book, lookup.Proxied(), w.log)
    ensures !ok ==> w.bars > old(w.bars) || !AllTook(w.log) || Stuck(old(w.Now()), lookup)
  {
    hide Path, Follow, Edge, LooseEdge, Replay, Short, Resolvable, FirstRead;
    var ds := w.saved;
    var running := AnyContainerRunning(w, ds.canary);
    if !running {
      w.NextRun();
      ds := ds.(status := Idle, token := "", previewURL := "", canary := []);
      ok := w.Save(ds);
      return;
    }
    ok := Rollback(w, book, lookup);
  }

  // ----------------------------------------------- what a recovery restores

  /** `book` has exactly the containers of the release that run. */
  ghost predicate Sees(book: map<string, string>, d: Deployment, s: World) {
    forall c :: Mine(d, c) ==> (c.id in book <==> s.Usable(c)) && (c.id in book ==> book[c.id] == c.addr)
  }

  /** The book has nothing wrong about these containers. */
  ghost predicate Honest(book: map<string, string>, cs: seq<Container>) {
    forall c :: c in cs && c.id in book ==> book[c.id] == c.addr
  }

  lemma ResolvableSnoc(rest: seq<Container>, last: Container, book: map<string, string>)
    requires Honest(book, rest + [last])
    ensures Resolvable(Ids(rest + [last]), book) ==
      Resolvable(Ids(rest), book) + (if last.id in book then [last] else [])
  {
    assert Ids(rest + [last])[..|rest|] == Ids(rest);
    assert last in rest + [last] && Container(last.id, last.addr) == last;
  }

  lemma {:induction false} ResolvableAre(cs: seq<Container>, book: map<string, string>)
    requires Honest(book, cs)
    ensures forall c :: c in Resolvable(Ids(cs), book) <==> c in cs && c.id in book
    ensures (forall c :: c in cs ==> c.id in book) ==> Resolvable(Ids(cs), book) == cs
  {
    hide Resolvable;
    if cs == [] {
      NothingResolvable(book);
    } else {
      var rest, last := cs[..|cs| - 1], cs[|cs| - 1];
      assert cs == rest + [last];
      ResolvableSnoc(rest, last, book);
      ResolvableAre(rest, book);
    }
  }

  lemma NothingResolvable(book: map<string, string>)
    ensures Resolvable(Ids([]), book) == []
  {
  }

  lemma {:induction false} ResolvableDistinct(cs: seq<Container>, book: map<string, string>)
    requires Distinct(cs) && Honest(book, cs)
    ensures Distinct(Resolvable(Ids(cs), book))
  {
    hide Resolvable;
    if cs == [] {
      NothingResolvable(book);
    } else {
      var rest, last := cs[..|cs| - 1], cs[|cs| - 1];
      assert cs == rest + [last];
      ResolvableSnoc(rest, last, book);
      ResolvableDistinct(rest, book);
      ResolvableAre(rest, book);
      var r := Resolvable(Ids(rest), book);
      forall i | 0 <= i < |r| ensures r[i].id != last.id && r[i].addr != last.addr {
        assert r[i] in rest;
        var j :| 0 <= j < |rest| && rest[j] == r[i];
        assert cs[j] == r[i] && cs[|cs| - 1] == last;
      }
    }
  }

  /** A rollback of a release that crashed knows the old containers exactly, and
      of the new ones those that still run. */
  lemma RollbackKnows(d: Deployment, s: World, book: map<string, string>)
    requires Recoverable(d, s) && Sees(book, d, s) && Running(s, s.saved.canary)
    ensures StrategyOf(s.saved.strategy) == Some(d.strategy)
    ensures var r := RollbackOf(s.saved, book, true);
      && WellFormed(r) && r.strategy == d.strategy && r.service == d.service && r.olds == d.olds
      && (forall c :: c in r.news <==> c in d.news && s.Usable(c))
  {
    hide Resolvable, Distinct;
    ResolvableAre(d.olds, book);
    ResolvableAre(d.news, book);
    ResolvableDistinct(d.olds, book);
    ResolvableDistinct(d.news, book);
    var r := RollbackOf(s.saved, book, true);
    forall c | c in d.olds ensures c.id in book {
      assert Mine(d, c);
    }
    forall c ensures c in r.news <==> c in d.news && s.Usable(c) {
      assert c in d.news ==> Mine(d, c);
    }
    var i :| 0 <= i < |d.news| && s.saved.canary[i] in s.existing && s.saved.canary[i] !in s.stopped;
    assert d.news[i] in r.news;
  }

  lemma RollbackStart(d: Deployment, s: World, book: map<string, string>)
    requires Recoverable(d, s) && Sees(book, d, s) && Running(s, s.saved.canary) && StrategyOf(s.saved.strategy).Some?
    ensures s in Possible(RollbackOf(s.saved, book, true), Listing(s.saved.stable, s.saved.canary),
      MarkRolling(s.saved))
    ensures WellFormed(RollbackOf(s.saved, book, true))
  {
    hide WellFormed, Live, Facts, Resolvable, Sees;
    RollbackKnows(d, s, book);
  }

  /** Rolling back a release that crashed, with a new container still running and a
      provider that has the proxy, keeps the promise whatever fails on the way; that
      is the promise without a drain, so of requests in flight it says nothing (see
      `RecoveryMeetsRequests`). When it gets to its end the
      proxy lists exactly the old containers, they all run, and the saved state is
      idle and names them; and if every effect took, no new container is left
      that ran before. */
  lemma RecoveryRestores(d: Deployment, s: World, book: map<string, string>, log: Log)
    requires Recoverable(d, s) && Sees(book, d, s) && Running(s, s.saved.canary) && StrategyOf(s.saved.strategy).Some?
    requires Path(RollbackOf(s.saved, book, true), MarkRolling(s.saved), log).Some?
    ensures EveryStepSafe(RollbackOf(s.saved, book, true), s, log)
    ensures var p := Path(RollbackOf(s.saved, book, true), MarkRolling(s.saved), log).value;
      var after := Replay(s, log);
      && (p.RolledBack? ==>
            && Live(after.accepted.servers) == Addrs(d.olds) && AllUsable(after, d.olds)
            && after.saved.status == Idle && after.saved.stable == Ids(d.olds) && after.saved.canary == [] &&
              after.saved.token == "")
      && (p.RolledBack? && AllTook(log) ==> forall c :: c in d.news && s.Usable(c) ==> c.id !in after.existing)
  {
    hide Live, WellFormed, Inv, Path, EveryStepSafe, Replay, Resolvable, Sees, RollbackOf, AllTook, GoingBack;
    var r := RollbackOf(s.saved, book, true);
    var l := Listing(s.saved.stable, s.saved.canary);
    RollbackKnows(d, s, book);
    RollbackStart(d, s, book);
    assert GoingBack(MarkRolling(s.saved)) by { IsGoingBack(s.saved); }
    RunIsSafe(r, l, MarkRolling(s.saved), s, log);
    var p := Path(r, MarkRolling(s.saved), log).value;
    if p.RolledBack? {
      RolledBackMeans(r, l, p.reason, Replay(s, log));
      if AllTook(log) {
        CompletedRunRemoves(r, MarkRolling(s.saved), s, log);
      }
    }
  }

  /** Crash recovery. Let a blue-green or canary release crash anywhere after its
      first save, before it touches an old container or is closed. Whatever the
      downtime did to the new containers and the proxy, a recovery in which every
      effect takes leaves the state idle and naming the old containers, which all
      run. If a new container still ran, and the provider has the proxy, no step
      stopped a container that took traffic, the proxy lists exactly the old
      containers, and every new one that ran is gone. */
  lemma CrashRecovery(d: Deployment, start: World, log: Log, s: World, book: map<string, string>, back: Log)
    requires WellFormed(d) && !d.strategy.Linear? && Ready(d, start)
    requires Path(d, Start, log).Some? && TouchesOnly(log, IdSet(d.news))
    requires var p := Path(d, Start, log).value; p != Start && p != Failed(Start) && !p.Done? && !p.RolledBack?
    requires s.saved == Replay(start, log).saved && forall c :: c in d.olds && Replay(start, log).Usable(c) ==>
      s.Usable(c)
    requires Sees(book, d, s) && Recovers(s, book, true, back) && AllTook(back)
    ensures var after := Replay(s, back);
      && after.saved.status == Idle && after.saved.stable == Ids(d.olds) && after.saved.canary == [] &&
        after.saved.token == ""
      && AllUsable(after, d.olds)
    ensures Running(s, s.saved.canary) ==>
      && StrategyOf(s.saved.strategy) == Some(d.strategy)
      && EveryStepSafe(RollbackOf(s.saved, book, true), s, back)
      && Live(Replay(s, back).accepted.servers) == Addrs(d.olds)
      && forall c :: c in d.news && s.Usable(c) ==> c.id !in Replay(s, back).existing
    ensures !Running(s, s.saved.canary) ==> Replay(s, back).accepted == s.accepted
  {
    hide Live, WellFormed, Inv, Path, EveryStepSafe, Resolvable, Sees, RollbackOf, TouchesOnly;
    CrashIsRecoverable(d, start, log);
    DowntimeKeepsRecoverable(d, Replay(start, log), s);
    if Running(s, s.saved.canary) {
      RollbackKnows(d, s, book);
      RecoveryRestores(d, s, book, back);
    } else {
      assert Replay(s, back) == Apply(s, Step(Save(ResetState(s.saved)), true));
    }
  }

  /** What a rollback from the saved state costs. It knows no settings, so it stops the
      new containers straight after the reload: a stop or removal meets a request of
      the main traffic exactly if one could be at that container when the rollback
      began, and one beside the main traffic exactly if the container was listed aside
      then, or had been since the last wait. */
  lemma RecoveryMeetsRequests(d: Deployment, s: World, book: map<string, string>, before: set<string>, log: Log,
                              c: Container)
    requires Recoverable(d, s) && Sees(book, d, s) && Running(s, s.saved.canary) && StrategyOf(s.saved.strategy).Some?
    requires Path(RollbackOf(s.saved, book, true), MarkRolling(s.saved), log).Some?
    requires log.Then? && (log.last.op.Stop? || log.last.op.Remove?) && Mine(d, c) && c.id == log.last.op.id
    ensures c in d.news
    ensures c.addr in Replay(s, log.before).busy <==> c.addr in s.busy
    ensures c.addr in SideTraffic.Lingering(before, s, log.before) <==> c.addr in before
  {
    hide Live, WellFormed, Path, Replay, Resolvable, Sees, SideTraffic.Lingering, Allowed;
    var r, entry := RollbackOf(s.saved, book, true), MarkRolling(s.saved);
    RollbackKnows(d, s, book);
    SideTraffic.LastStep(r, entry, log);
    MainTraffic.RollsBack(r, s.saved, log.before);
    var x := Known(r, Path(r, entry, log.before).value, log.last);
    assert x in d.news;
    SameContainer(d, x, c);
    MainTraffic.RollbackMeetsMainTraffic(r, s.saved, s, log, c);
    SideTraffic.WayBackMeetsSideTraffic(r, entry, before, s, log, c);
  }

  /** The container that a rollback stops or removes. */
  lemma Known(r: Deployment, p: Point, step: Step) returns (c: Container)
    requires MainTraffic.OnRollback(p) && Allowed(r, p, step) && (step.op.Stop? || step.op.Remove?)
    ensures c in r.news && c.id == step.op.id
    ensures p.Sweep? && p.why.GiveBack?
  {
    hide OldOnly, SettledState;
    c := Swept(r, p.why)[p.j];
  }

  lemma BlindStep(d: Deployment, p: Point, step: Step)
    requires !d.hasProxy && Allowed(d, p, step)
    requires p.MarkRolling? || p.Roll? || p.RollDrain? || p.CloseRoll? || (p.Sweep? && p.why.GiveBack?)
    ensures !step.op.Configure?
    ensures var q := Next(d, p, step);
      q.Roll? || q.RollDrain? || q.CloseRoll? || q.RolledBack? || q.Failed? || (q.Sweep? && q.why.GiveBack?)
  {
    hide Victims, SettledState, OldOnly;
  }

  /** A rollback with no proxy to its provider never touches what the proxy serves. */
  lemma {:induction false} BlindLeavesProxy(d: Deployment, ds: DeploymentState, s: World, log: Log)
    requires !d.hasProxy && Path(d, MarkRolling(ds), log).Some?
    ensures Replay(s, log).accepted == s.accepted
    ensures var p := Path(d, MarkRolling(ds), log).value;
      || p.MarkRolling? || p.Roll? || p.RollDrain? || p.CloseRoll? || p.RolledBack? || p.Failed?
      || (p.Sweep? && p.why.GiveBack?)
  {
    hide Allowed, Next;
    if log.Then? {
      var p := Path(d, MarkRolling(ds), log.before).value;
      BlindLeavesProxy(d, ds, s, log.before);
      assert !Ended(p) by { EndsStay(d, p, log.last); }
      BlindStep(d, p, log.last);
    }
  }

  /** Where a rollback of a release that crashed leaves the proxy, once it is through:
      at the old containers exactly if its provider has the proxy, or the proxy was
      there already. Without, it still stops and removes the new containers and saves
      that the old ones serve. */
  lemma RollbackRoutesExactly(d: Deployment, s: World, book: map<string, string>, proxied: bool, log: Log)
    requires Recoverable(d, s) && Sees(book, d, s) && Running(s, s.saved.canary) && StrategyOf(s.saved.strategy).Some?
    requires Path(RollbackOf(s.saved, book, proxied), MarkRolling(s.saved), log) == Some(RolledBack(""))
    ensures var after := Replay(s, log);
      && (Live(after.accepted.servers) == Addrs(d.olds) <==> proxied || Live(s.accepted.servers) == Addrs(d.olds))
      && after.saved.status == Idle && after.saved.stable == Ids(d.olds)
      && (AllTook(log) ==> forall c :: c in d.news && s.Usable(c) ==> c.id !in after.existing)
  {
    hide Live, WellFormed, Inv, Path, EveryStepSafe, Replay, Resolvable, Sees, RollbackOf, AllTook, GoingBack;
    var r := RollbackOf(s.saved, book, proxied);
    RollbackKnows(d, s, book);
    SameButProxy(s.saved, book, proxied);
    if proxied {
      RecoveryRestores(d, s, book, log);
    } else {
      BlindLeavesProxy(r, s.saved, s, log);
      BlindSaves(r, s.saved, s, log);
    }
    if AllTook(log) {
      CompletedRunRemoves(r, MarkRolling(s.saved), s, log);
    }
  }

  lemma SameButProxy(ds: DeploymentState, book: map<string, string>, proxied: bool)
    requires StrategyOf(ds.strategy).Some?
    ensures RollbackOf(ds, book, proxied) == RollbackOf(ds, book, true).(hasProxy := proxied)
  {
  }

  lemma {:induction false} BlindSaves(d: Deployment, ds: DeploymentState, s: World, log: Log)
    requires !d.hasProxy && Path(d, MarkRolling(ds), log).Some?
    ensures var p := Path(d, MarkRolling(ds), log).value;
      p.RolledBack? ==> Replay(s, log).saved.status == Idle && Replay(s, log).saved.stable == Ids(d.olds)
  {
    hide Allowed, Next;
    if log.Then? {
      var p := Path(d, MarkRolling(ds), log.before).value;
      BlindLeavesProxy(d, ds, s, log.before);
      assert !Ended(p) by { EndsStay(d, p, log.last); }
      ClosingSaves(d, p, Replay(s, log.before), log.last);
    }
  }

  lemma ClosingSaves(d: Deployment, p: Point, s: World, step: Step)
    requires Allowed(d, p, step)
    requires p.MarkRolling? || p.Roll? || p.RollDrain? || p.CloseRoll? || (p.Sweep? && p.why.GiveBack?)
    ensures Next(d, p, step).RolledBack? ==>
      Apply(s, step).saved.status == Idle && Apply(s, step).saved.stable == Ids(d.olds)
  {
    hide Victims, OldOnly;
  }

  lemma IsGoingBack(ds: DeploymentState)
    ensures GoingBack(MarkRolling(ds))
  {
  }

  lemma RolledBackMeans(d: Deployment, l: Listing, reason: string, s: World)
    requires s in Possible(d, l, RolledBack(reason))
    ensures Live(s.accepted.servers) == Addrs(d.olds) && AllUsable(s, d.olds)
    ensures s.saved.status == Idle && s.saved.stable == Ids(d.olds) && s.saved.canary == [] && s.saved.token == ""
  {
    hide Live;
  }

  /** Without faults no point of a rollback is a failed one. */
  lemma {:induction false} RecoveryDoesNotFail(d: Deployment, ds: DeploymentState, log: Log)
    requires AllTook(log) && Path(d, MarkRolling(ds), log).Some?
    ensures !Path(d, MarkRolling(ds), log).value.Failed?
  {
    hide Allowed, Next;
    if log.Then? {
      RecoveryDoesNotFail(d, ds, log.before);
    }
  }

  /** The other end of a release: once old containers are being removed, a crash
      before the last save leaves them on record. A rollback then lists exactly
      those that still have an address, so it empties the proxy if and only if
      none does. */
  lemma RollbackToNothing(ds: DeploymentState, book: map<string, string>)
    requires StrategyOf(ds.strategy).Some?
    ensures Live(OldOnly(RollbackOf(ds, book, true), "").servers) == [] <==>
      forall i :: 0 <= i < |ds.stable| ==> ds.stable[i] !in book
  {
    LiveOfOldOnly(RollbackOf(ds, book, true), "", "");
    ResolvableNone(ds.stable, book);
  }

  /** Which is what a crash right before the last save comes to: every old
      container is gone, the new ones all run and take the traffic, and a rollback
      would leave the proxy with no server at all. */
  lemma CrashAfterRetiring(d: Deployment, start: World, log: Log, book: map<string, string>)
    requires WellFormed(d) && d.config.Validated() && !d.strategy.Linear? && Ready(d, start)
    requires Path(d, Start, log) == Some(Finish) && AllTook(log)
    requires Sees(book, d, Replay(start, log)) && StrategyOf(Replay(start, log).saved.strategy).Some?
    ensures var s := Replay(start, log);
      && Running(s, s.saved.canary) && Live(s.accepted.servers) == Addrs(d.news)
      && Live(OldOnly(RollbackOf(s.saved, book, true), "").servers) == []
  {
    hide Live, Path, Replay, WellFormed, Inv, Resolvable, RollbackOf, AllTook;
    var s := Replay(start, log);
    RunIsSafe(d, OwnListing(d), Start, start, log);
    CompletedRunRemoves(d, Start, start, log);
    RetiredMeans(d, s);
    forall i | 0 <= i < |s.saved.stable| ensures s.saved.stable[i] !in book {
      assert d.olds[i] in d.olds && Mine(d, d.olds[i]);
    }
    RollbackToNothing(s.saved, book);
  }

  lemma RetiredMeans(d: Deployment, s: World)
    requires WellFormed(d) && !d.strategy.Linear? && s in Possible(d, OwnListing(d), Finish)
    ensures Live(s.accepted.servers) == Addrs(d.news) && s.saved.stable == Ids(d.olds) && Running(s, s.saved.canary)
  {
    hide Live, Distinct;
    assert d.news[0] in d.news && d.news[0] !in d.olds;
    assert s.Usable(d.news[0]) && s.saved.canary[0] == d.news[0].id;
  }

  lemma {:induction false} ResolvableNone(ids: seq<string>, book: map<string, string>)
    ensures Resolvable(ids, book) == [] <==> forall i :: 0 <= i < |ids| ==> ids[i] !in book
  {
    if ids != [] {
      ResolvableNone(ids[..|ids| - 1], book);
    }
  }

  /** A rollback names its config after the service, so it goes to the upstream
      the release was using only when that is its name too. */
  lemma RollbackName(d: Deployment, s: World, book: map<string, string>)
    requires StrategyOf(s.saved.strategy).Some? && s.saved.service == d.service
    ensures OldOnly(RollbackOf(s.saved, book, true), "").upstreamName == OldOnly(d, "").upstreamName
       <==> d.config.upstreamName == "" || d.config.upstreamName == d.service
  {
  }

  /** A linear release is never rolled back on recovery: its state lists no new
      containers, so it is closed where it stands. */
  lemma LinearIsClosed(d: Deployment, k: nat, s: World)
    requires d.strategy.Linear? && k <= d.Replacements() && s.saved == SwapState(d, k)
    ensures !Running(s, s.saved.canary)
  {
  }
}
