/** Runs in which every effect takes get through: what is said of completed runs is
    not empty, and what goes wrong in some of them does happen. */
module Completion {
  import opened Rollout
  import opened Machine
  import opened Promise
  import opened Safety
  import opened Restart
  import opened Outcomes
  import opened Recovery
  import AbortRun
  import Startup

  /** One more effect, which takes. */
  lemma More(d: Deployment, entry: Point, log: Log, p: Point, op: Op, q: Point) returns (longer: Log)
    requires Path(d, entry, log) == Some(p) && AllTook(log) && (Edge(d, p, op, q) || LooseEdge(d, p, op, q))
    ensures longer == Then(log, Step(op, true)) && AllTook(longer) && Path(d, entry, longer) == Some(q)
  {
    hide Path, Edge, LooseEdge;
    longer := Then(log, Step(op, true));
    if Edge(d, p, op, q) {
      Along(d, entry, longer, p, q);
    } else {
      Despite(d, entry, longer, p, q);
    }
  }

  lemma Sweeps(d: Deployment, entry: Point, log: Log, why: Why, j: nat) returns (full: Log)
    requires j <= |Swept(d, why)| && Path(d, entry, log) == Some(SweepFrom(d, why, j)) && AllTook(log)
    ensures Path(d, entry, full) == Some(AfterSweep(why)) && AllTook(full)
    decreases |Swept(d, why)| - j
  {
    hide Path, Edge, LooseEdge, Swept;
    full := log;
    if j < |Swept(d, why)| {
      SweepEdges(d, why, j);
      full := More(d, entry, full, Sweep(why, j, false), Stop(Swept(d, why)[j].id), Sweep(why, j, true));
      full := More(d, entry, full, Sweep(why, j, true), Remove(Swept(d, why)[j].id), SweepFrom(d, why, j + 1));
      full := Sweeps(d, entry, full, why, j + 1);
    }
  }

  // ------------------------------------------------------------------- linear

  lemma Swaps(d: Deployment, log: Log, i: nat) returns (full: Log)
    requires i <= d.Replacements() && Path(d, Start, log) == Some(SwapFrom(d, i)) && AllTook(log)
    ensures Path(d, Start, full) == Some(ExtraFrom(d, |d.olds|)) && AllTook(full)
    decreases d.Replacements() - i
  {
    hide Path, Edge, LooseEdge, StepUpstream, SwapState;
    full := log;
    if i < d.Replacements() {
      SwapEdges(d, i);
      RecordEdge(d, i);
      full := More(d, Start, full, Swap(i, Health), WaitHealthy(d.news[i].id), Swap(i, Route));
      full := More(d, Start, full, Swap(i, Route), Configure(StepUpstream(d, i)), Swap(i, DrainOld));
      full := More(d, Start, full, Swap(i, DrainOld), Pause(d.config.drain), Swap(i, StopOld));
      full := More(d, Start, full, Swap(i, StopOld), Stop(d.olds[i].id), Swap(i, RemoveOld));
      full := More(d, Start, full, Swap(i, RemoveOld), Remove(d.olds[i].id), Swap(i, Record));
      full := More(d, Start, full, Swap(i, Record), Save(SwapState(d, i + 1)), SwapFrom(d, i + 1));
      full := Swaps(d, full, i + 1);
    }
  }

  lemma Extras(d: Deployment, log: Log, j: nat) returns (full: Log)
    requires Path(d, Start, log) == Some(ExtraFrom(d, j)) && AllTook(log)
    ensures Path(d, Start, full) == Some(Point.Settle) && AllTook(full)
    decreases |d.news| - j
  {
    hide Path, Edge, LooseEdge;
    full := log;
    if j < |d.news| {
      ExtraEdge(d, j);
      full := More(d, Start, full, Extra(j), WaitHealthy(d.news[j].id), ExtraFrom(d, j + 1));
      full := Extras(d, full, j + 1);
    }
  }

  lemma LinearFinishes(d: Deployment) returns (log: Log)
    requires d.strategy.Linear?
    ensures Path(d, Start, log) == Some(Finish) && AllTook(log)
  {
    hide Path, Edge, LooseEdge, SwapFrom, ExtraFrom;
    Begin(d, Start);
    LinearEdges(d);
    log := More(d, Start, Empty, Start, Save(FreshState(d)), SwapFrom(d, 0));
    log := Swaps(d, log, 0);
    log := Extras(d, log, |d.olds|);
    log := More(d, Start, log, Point.Settle, Configure(NewOnly(d, d.config.affinity)), SettlePlain);
    log := More(d, Start, log, SettlePlain, Configure(NewOnly(d, "")), Finish);
  }

  // ---------------------------------------------------- blue-green and canary

  lemma AllHealthy(d: Deployment, log: Log, j: nat) returns (full: Log)
    requires j <= |d.news| && Path(d, Start, log) == Some(HealthyFrom(d, j)) && AllTook(log)
    ensures Path(d, Start, full) == Some(HealthyFrom(d, |d.news|)) && AllTook(full)
    decreases |d.news| - j
  {
    hide Path, Edge, LooseEdge;
    full := log;
    if j < |d.news| {
      HealthyEdge(d, j);
      full := More(d, Start, full, Healthy(j), WaitHealthy(d.news[j].id), HealthyFrom(d, j + 1));
      full := AllHealthy(d, full, j + 1);
    }
  }

  lemma BeginsHealthy(d: Deployment) returns (log: Log)
    requires !d.strategy.Linear?
    ensures Path(d, Start, log) == Some(HealthyFrom(d, |d.news|)) && AllTook(log)
  {
    hide Path, Edge, LooseEdge, HealthyFrom;
    Begin(d, Start);
    StartEdges(d);
    log := More(d, Start, Empty, Start, Save(FreshState(d)), HealthyFrom(d, 0));
    log := AllHealthy(d, log, 0);
  }

  lemma Shifts(d: Deployment, log: Log, weight: int) returns (full: Log)
    requires d.config.Validated() && Path(d, Start, log) == Some(ShiftFrom(d, weight)) && AllTook(log)
    ensures Path(d, Start, full) == Some(Promote) && AllTook(full)
    decreases 100 - weight
  {
    hide Path, Edge, LooseEdge;
    full := log;
    if weight < 100 {
      ShiftEdges(d, weight);
      var next := weight + d.config.canaryStep;
      full := More(d, Start, full, Shift(weight), Configure(SplitUpstream(d, weight)), RecordShift(weight));
      full := More(d, Start, full, RecordShift(weight), Save(WeightState(d, weight)), Observe(weight));
      full := More(d, Start, full, Observe(weight), Pause(d.config.interval), ShiftFrom(d, next));
      full := Shifts(d, full, next);
    }
  }

  lemma Checks(d: Deployment, log: Log, j: nat, token: string) returns (full: Log)
    requires Path(d, Start, log) == Some(CheckFrom(d, j, token)) && AllTook(log)
    ensures Path(d, Start, full) == Some(Cutover) && AllTook(full)
    decreases |d.news| - j
  {
    hide Path, Follow;
    full := log;
    if d.config.checkCommand != "" && j < |d.news| {
      CheckEdge(d, j, token, "");
      full := Then(full, Step(RunCheck(d.news[j].id, token, ""), true));
      Go(d, Start, full, Check(j, token), CheckFrom(d, j + 1, token));
      full := Checks(d, full, j + 1, token);
    }
  }

  lemma Previews(d: Deployment, log: Log) returns (full: Log)
    requires d.strategy.BlueGreen? && Path(d, Start, log) == Some(HealthyFrom(d, |d.news|)) && AllTook(log)
    ensures Path(d, Start, full) == Some(Cutover) && AllTook(full)
  {
    hide Path, Edge, LooseEdge;
    full := log;
    var token := "";
    if d.config.HasPreview() {
      if d.config.previewToken != "" {
        token := if d.config.previewToken == "auto" then "t" else d.config.previewToken;
        PreviewEdges(d, token);
        full := More(d, Start, full, Token, Save(TokenState(d, token)), Publish(token));
      }
      PreviewEdges(d, token);
      full := More(d, Start, full, Publish(token), Configure(PreviewUpstream(d, token)), CheckFrom(d, 0, token));
    }
    full := Checks(d, full, 0, token);
  }

  lemma Promotes(d: Deployment, log: Log) returns (full: Log)
    requires Path(d, Start, log) == Some(Promote) && AllTook(log)
    ensures Path(d, Start, full) == Some(SweepFrom(d, Retire, 0)) && AllTook(full)
  {
    hide Path, Edge, LooseEdge;
    PromoteEdges(d);
    full := More(d, Start, log, Promote, Configure(BackupUpstream(d, DrainAffinity(d))), PromoteDrain);
    full := More(d, Start, full, PromoteDrain, Pause(d.config.drain), PromotePlain);
    full := More(d, Start, full, PromotePlain, Configure(NewOnly(d, "")), SweepFrom(d, Retire, 0));
  }

  lemma Cuts(d: Deployment, log: Log) returns (full: Log)
    requires Path(d, Start, log) == Some(Cutover) && AllTook(log)
    ensures Path(d, Start, full) == Some(SweepFrom(d, Retire, 0)) && AllTook(full)
  {
    hide Path, Follow, Edge, LooseEdge, CutUpstream, WeightState;
    CutEdges(d);
    full := More(d, Start, log, Cutover, Configure(CutUpstream(d)), RecordCut);
    if d.config.watch {
      full := More(d, Start, full, RecordCut, Save(WeightState(d, CutWeight(d))), Window);
      WindowEdge(d, [], Clean, "", true);
      full := Then(full, Step(Watch([], Clean, ""), true));
      Go(d, Start, full, Window, SweepFrom(d, Retire, 0));
    } else {
      full := More(d, Start, full, RecordCut, Save(WeightState(d, CutWeight(d))), Soak);
      full := More(d, Start, full, Soak, Pause(d.config.soak), Promote);
      full := Promotes(d, full);
    }
  }

  lemma SetFinishes(d: Deployment) returns (log: Log)
    requires !d.strategy.Linear? && d.config.Validated()
    ensures Path(d, Start, log) == Some(Finish) && AllTook(log)
  {
    hide Path;
    log := BeginsHealthy(d);
    if d.strategy.Canary? {
      log := Shifts(d, log, d.config.canaryStart);
      log := Promotes(d, log);
    } else {
      log := Previews(d, log);
      log := Cuts(d, log);
    }
    log := Sweeps(d, Start, log, Retire, 0);
  }

  // -------------------------------------------------------- runs get through

  /** Every release can complete: there is a run to its last save, and to its end. */
  lemma ReleasesComplete(d: Deployment) returns (last: Log, log: Log)
    requires d.config.Validated()
    ensures Path(d, Start, last) == Some(Finish) && AllTook(last)
    ensures Path(d, Start, log) == Some(Done) && AllTook(log)
  {
    hide Path, Edge, LooseEdge;
    if d.strategy.Linear? {
      last := LinearFinishes(d);
      LinearEdges(d);
    } else {
      last := SetFinishes(d);
      StartEdges(d);
    }
    log := More(d, Start, last, Finish, Save(FinishedState(d)), Done);
  }

  /** So can every abort. */
  lemma AbortsComplete(d: Deployment, targets: seq<Container>) returns (log: Log)
    ensures Path(d, Abort(targets), log) == Some(Aborted(targets)) && AllTook(log)
  {
    hide Path, Edge, LooseEdge, Victims, TargetUpstream;
    var entry := Abort(targets);
    Begin(d, entry);
    AbortEdges(d, targets);
    log := More(d, entry, Empty, entry, Configure(TargetUpstream(d, targets)), AbortDrain(targets));
    log := More(d, entry, log, AbortDrain(targets), Pause(d.config.drain), SweepFrom(d, Discard(targets), 0));
    log := Sweeps(d, entry, log, Discard(targets), 0);
    log := More(d, entry, log, CloseAbort(targets), Save(SettledState(d, targets, "")), Aborted(targets));
  }

  /** A rollback that is about to remove the new containers. */
  lemma RollbackDrained(d: Deployment, ds: DeploymentState) returns (log: Log)
    ensures Path(d, MarkRolling(ds), log) == Some(SweepFrom(d, GiveBack(""), 0)) && AllTook(log)
    ensures log.Then?
  {
    hide Path, Follow, Edge, LooseEdge, OldOnly;
    var entry := MarkRolling(ds);
    Begin(d, entry);
    MarkEdge(d, ds);
    RollEdges(d, "");
    log := More(d, entry, Empty, entry, Save(ds.(status := RollingBack)), Roll(""));
    if d.hasProxy {
      log := More(d, entry, log, Roll(""), Configure(OldOnly(d, "")), RollDrain(""));
    } else {
      log := Then(log, Step(NoConfig, true));
      Go(d, entry, log, Roll(""), RollDrain(""));
    }
    log := More(d, entry, log, RollDrain(""), Pause(d.config.drain), SweepFrom(d, GiveBack(""), 0));
  }

  /** And every rollback, with a proxy or without. */
  lemma RollbacksComplete(d: Deployment, ds: DeploymentState) returns (log: Log)
    ensures Path(d, MarkRolling(ds), log) == Some(RolledBack("")) && AllTook(log)
  {
    hide Path, Edge, LooseEdge;
    var entry := MarkRolling(ds);
    log := RollbackDrained(d, ds);
    log := Sweeps(d, entry, log, GiveBack(""), 0);
    RollEdges(d, "");
    log := More(d, entry, log, CloseRoll(""), Save(SettledState(d, d.olds, "")), RolledBack(""));
  }

  // ---------------------------------------------------- what does go wrong

  /** A linear release with more old than new containers that completes: the surplus
      runs on, and no record lists it. */
  lemma SurplusHappens(d: Deployment, start: World) returns (log: Log)
    requires WellFormed(d) && d.config.Validated() && d.strategy.Linear? && Ready(d, start) && |d.olds| > |d.news|
    ensures Path(d, Start, log) == Some(Done) && AllTook(log)
    ensures var after := Replay(start, log);
      var left := d.olds[|d.news|];
      left.id in after.existing && left.id !in after.saved.stable && after.saved.status == Idle
  {
    hide Live, Path, Replay, WellFormed, Inv;
    var last;
    last, log := ReleasesComplete(d);
    LinearSurplus(d, start, log);
    EndSaves(d, start, log);
    assert d.olds[|d.news|] in d.olds && d.olds[|d.news|] in d.olds[d.Replacements()..];
  }

  lemma EndSaves(d: Deployment, start: World, log: Log)
    requires WellFormed(d) && d.config.Validated() && Ready(d, start) && Path(d, Start, log) == Some(Done)
    ensures Replay(start, log).saved.status == Idle
  {
    hide Live, Path, Replay, WellFormed;
    RunIsSafe(d, OwnListing(d), Start, start, log);
  }

  /** A crash between the last removal and the last save, after which a rollback
      empties the proxy. */
  lemma EmptyingHappens(d: Deployment, start: World, book: map<string, string>) returns (log: Log)
    requires WellFormed(d) && d.config.Validated() && !d.strategy.Linear? && Ready(d, start)
    ensures Path(d, Start, log) == Some(Finish) && AllTook(log)
    ensures Sees(book, d, Replay(start, log)) ==>
      var s := Replay(start, log);
      && StrategyOf(s.saved.strategy).Some? && Live(s.accepted.servers) == Addrs(d.news)
      && Live(OldOnly(RollbackOf(s.saved, book, true), "").servers) == []
  {
    hide Live, Path, Replay, WellFormed, Inv, RollbackOf, Inside;
    var all;
    log, all := ReleasesComplete(d);
    RunInside(d, start, log);
    assert StrategyOf(Replay(start, log).saved.strategy).Some? by { ListedKnown(d, Replay(start, log).saved); }
    if Sees(book, d, Replay(start, log)) {
      CrashAfterRetiring(d, start, log, book);
    }
  }

  lemma ListedKnown(d: Deployment, ds: DeploymentState)
    requires Lists(d, ds)
    ensures StrategyOf(ds.strategy) == Some(d.strategy)
  {
  }

  /** A canary release that has put its first weight on record. */
  lemma CanaryShifted(d: Deployment) returns (log: Log)
    requires d.strategy.Canary? && d.config.Validated() && d.config.canaryStart < 100
    ensures Path(d, Start, log) == Some(Observe(d.config.canaryStart)) && AllTook(log)
    ensures log.Then? && log.last == Step(Save(WeightState(d, d.config.canaryStart)), true)
  {
    hide Path, Edge, LooseEdge, WeightState, SplitUpstream;
    var w := d.config.canaryStart;
    log := BeginsHealthy(d);
    ShiftEdges(d, w);
    log := More(d, Start, log, Shift(w), Configure(SplitUpstream(d, w)), RecordShift(w));
    log := More(d, Start, log, RecordShift(w), Save(WeightState(d, w)), Observe(w));
  }

  /** The world a start leaves for its recovery. */
  function Synced(d: Deployment, s: World, listed: seq<string>, book: map<string, string>): World {
    Apply(s, Step(Configure(Startup.SyncUpstream(d.service, d.config, s.saved, listed, book)), true))
  }

  /** A recovery that cuts off requests. A canary release crashes with its first weight
      on record; the start puts the split config back, which sends requests to the new
      containers; the recovery reloads and stops the first of them, with nothing in
      between that would let them finish. */
  lemma RecoveryCutsOff(d: Deployment, start: World, listed: seq<string>, book: map<string, string>)
    returns (crash: Log, back: Log)
    requires WellFormed(d) && d.strategy.Canary? && d.config.Validated() && d.config.canaryStart < 100
    requires Ready(d, start)
    ensures Path(d, Start, crash) == Some(Observe(d.config.canaryStart))
    ensures Startup.Inventory(d, Replay(start, crash), listed, book) ==>
      var s := Replay(start, crash);
      var synced := Synced(d, s, listed, book);
      && StrategyOf(s.saved.strategy).Some?
      && Path(RollbackOf(s.saved, book, true), MarkRolling(s.saved), back).Some?
      && back.Then? && back.last == Step(Stop(d.news[0].id), true)
      && d.news[0].addr in Replay(synced, back.before).busy
  {
    hide Live, Path, Replay, WellFormed, Inv, RollbackOf, Startup.SyncUpstream, Running, RestartUpstream, Resolvable;
    crash := CanaryShifted(d);
    back := Empty;
    var s, synced := Replay(start, crash), Synced(d, Replay(start, crash), listed, book);
    CrashedShifted(d, start, crash);
    if Startup.Inventory(d, s, listed, book) {
      assert Sees(book, d, synced) && Running(synced, synced.saved.canary)
        by { ShiftedRuns(d, s, synced, listed, book); }
      RollbackKnows(d, synced, book);
      var r := RollbackOf(s.saved, book, true);
      assert r.news == d.news by { AllKnown(d, s, book); }
      assert |d.news| > 0 by { AbortRun.Nonempty(d); }
      back := RollbackDrained(r, s.saved);
      SweepEdges(r, GiveBack(""), 0);
      back := More(r, MarkRolling(s.saved), back, Sweep(GiveBack(""), 0, false), Stop(d.news[0].id),
        Sweep(GiveBack(""), 0, true));
      assert d.news[0].addr in synced.busy by { SplitBusy(d, s, listed, book); }
      assert d.news[0] in d.news;
      RecoveryMeetsRequests(d, synced, book, {}, back, d.news[0]);
    }
  }

  lemma CrashedShifted(d: Deployment, start: World, log: Log)
    requires WellFormed(d) && d.strategy.Canary? && d.config.Validated() && d.config.canaryStart < 100
    requires Ready(d, start) && Path(d, Start, log) == Some(Observe(d.config.canaryStart)) && log.Then?
    requires log.last == Step(Save(WeightState(d, d.config.canaryStart)), true)
    ensures var s := Replay(start, log);
      && s.saved == WeightState(d, d.config.canaryStart) && AllUsable(s, d.olds) && AllUsable(s, d.news)
  {
    hide Live, Path, WellFormed;
    RunIsSafe(d, OwnListing(d), Start, start, log);
    assert Replay(start, log) == Apply(Replay(start, log.before), log.last);
  }

  lemma ShiftedRuns(d: Deployment, s: World, synced: World, listed: seq<string>, book: map<string, string>)
    requires WellFormed(d) && d.strategy.Canary? && s.saved == WeightState(d, d.config.canaryStart)
    requires AllUsable(s, d.olds) && AllUsable(s, d.news) && Startup.Inventory(d, s, listed, book)
    requires synced == Synced(d, s, listed, book)
    ensures Recoverable(d, synced) && Sees(book, d, synced) && Running(synced, synced.saved.canary)
  {
    hide Distinct, Startup.SyncUpstream, Live;
    assert d.news[0] in d.news && synced.saved.canary[0] == d.news[0].id;
  }

  lemma AllKnown(d: Deployment, s: World, book: map<string, string>)
    requires s.saved == WeightState(d, d.config.canaryStart) && d.strategy.Canary?
    requires Sees(book, d, s) && AllUsable(s, d.news)
    ensures RollbackOf(s.saved, book, true).news == d.news
  {
    hide Resolvable;
    forall c | c in d.news ensures c.id in book && book[c.id] == c.addr {
      assert Mine(d, c);
    }
    ResolvableAre(d.news, book);
  }

  lemma SplitBusy(d: Deployment, s: World, listed: seq<string>, book: map<string, string>)
    requires WellFormed(d) && d.strategy.Canary? && d.config.Validated() && d.config.canaryStart < 100
    requires s.saved == WeightState(d, d.config.canaryStart) && Sees(book, d, s) && AllUsable(s, d.olds) &&
      AllUsable(s, d.news)
    ensures d.news[0].addr in Synced(d, s, listed, book).busy
  {
    hide Live, RestartUpstream, Distinct;
    forall c | c in d.olds || c in d.news ensures c.id in book && book[c.id] == c.addr {
      assert Mine(d, c);
    }
    RestartIsSplit(d, s.saved, book);
    LiveOfSplit(d, s.saved.weight);
    assert d.news[0] in d.olds + d.news;
    AddrIn(d.olds + d.news, d.news[0]);
  }

  /** A recovery that leaves the proxy at containers it removed: after the same crash,
      with the service's containers not listed, every effect of the rollback takes. */
  lemma BlindRecoveryHappens(d: Deployment, s: World, book: map<string, string>) returns (back: Log)
    requires Recoverable(d, s) && Sees(book, d, s) && Running(s, s.saved.canary) && StrategyOf(s.saved.strategy).Some?
    ensures !Lookup(false, [], true).Proxied()
    ensures Recovers(s, book, false, back) && AllTook(back)
    ensures var after := Replay(s, back);
      && after.accepted == s.accepted
      && after.saved.status == Idle && after.saved.stable == Ids(d.olds)
      && forall c :: c in d.news && s.Usable(c) ==> c.id !in after.existing
  {
    hide Live, Path, Replay, RollbackOf, Resolvable, Sees, WellFormed;
    var r := RollbackOf(s.saved, book, false);
    assert !r.hasProxy by { SameButProxy(s.saved, book, false); }
    back := RollbacksComplete(r, s.saved);
    RollbackRoutesExactly(d, s, book, false, back);
    BlindLeavesProxy(r, s.saved, s, back);
  }
}
