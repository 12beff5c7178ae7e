/** One release from start to end, as the controller runs it: the strategy, and
    the abort when the strategy fails. */
module Deploy {
  import opened Requests
  import opened Rollout
  import opened Machine
  import opened Promise
  import opened Safety
  import opened Platform
  import opened SharedSteps
  import opened AbortRun
  import opened Outcomes
  import LinearStrategy
  import BlueGreenStrategy
  import CanaryStrategy

  datatype End =
    | Released
    | Discarded
    | NotStarted
    | GaveUp(reason: string)
    | WentBack
    | AbortFailed

  /** The state saved before anything else is known of the release. */
  function EarlyState(d: Deployment): DeploymentState {
    DeploymentState(d.service, InProgress, d.strategy.Tag(), 0, [], [], "", "", "")
  }

  method RunStrategy(w: Platform, d: Deployment, seen: Delivery) returns (r: Outcome)
    requires d.config.Validated()
    modifies w
    ensures w.start == old(w.Now())
    ensures r.Ok? ==> AtPoint(w, d, Start, Done)
    ensures r.Failure? ==> CutShort(w, d, Start)
    ensures r.Undone? ==> AtPoint(w, d, Start, RolledBack(r.reason))
    ensures r.Ok? && d.strategy.BlueGreen? && d.config.watch ==> BlueGreenStrategy.Passes(d, seen)
  {
    match d.strategy
    case Linear => r := LinearStrategy.Execute(w, d);
    case BlueGreen => r := BlueGreenStrategy.Execute(w, d, seen);
    case Canary => r := CanaryStrategy.Execute(w, d);
  }

  /** Begins with the stop and the removal of each of these, in order. */
  predicate Removes(ops: seq<Op>, cs: seq<Container>) {
    && |ops| >= 2 * |cs|
    && forall i :: 0 <= i < |cs| ==> ops[2 * i] == Op.Stop(cs[i].id) && ops[2 * i + 1] == Op.Remove(cs[i].id)
  }

  /** Removes new containers that never took traffic, and puts the old ones on
      record. */
  method DiscardNew(w: Platform, d: Deployment)
    requires WellFormed(d)
    modifies w
    ensures w.Valid() && w.start == old(w.Now())
    ensures |Ops(w.log)| == 2 * |d.news| + 1 && Removes(Ops(w.log), d.news)
    ensures Ops(w.log)[2 * |d.news|] == Op.Save(SettledState(d, d.olds, ""))
    ensures w.accepted == old(w.accepted) && w.busy == old(w.busy) && w.healthy == old(w.healthy)
    ensures forall c :: c in d.olds && old(w.Now()).Usable(c) ==> w.Now().Usable(c)
    ensures w.saved == old(w.saved) || w.saved == SettledState(d, d.olds, "")
  {
    w.NextRun();
    for i := 0 to |d.news|
      invariant w.Valid() && w.start == old(w.Now()) && |Ops(w.log)| == 2 * i && Removes(Ops(w.log), d.news[..i])
      invariant w.accepted == old(w.accepted) && w.busy == old(w.busy) && w.healthy == old(w.healthy)
      invariant forall c :: c in d.olds && old(w.Now()).Usable(c) ==> w.Now().Usable(c)
      invariant w.saved == old(w.saved)
    {
      assert d.news[i] in d.news;
      ghost var log := w.log;
      var _ := w.Stop(d.news[i].id);
      var _ := w.Remove(d.news[i].id);
      TwoMore(log, w.log);
    }
    assert d.news[..|d.news|] == d.news;
    var _ := w.Save(SettledState(d, d.olds, ""));
  }

  lemma TwoMore(log: Log, longer: Log)
    requires longer.Then? && longer.before.Then? && longer.before.before == log
    ensures Ops(longer) == Ops(log) + [longer.before.last.op, longer.last.op]
  {
  }

  /** How a release may leave the world it found ready. `failed` is the world the
      abort began in, if there was one. */
  ghost predicate Ends(d: Deployment, end: End, found: World, failed: World, now: World) {
    && (end.Released? ==>
          && Live(now.accepted.servers) == Addrs(d.news) && AllUsable(now, d.news) && now.saved == FinishedState(d)
          && (Surplus(d) == [] ==> Settled(d, now, d.news)))
    && (end.GaveUp? ==> Settled(d, now, d.olds) && now.saved.status == Idle && now.saved.stable == Ids(d.olds))
    && (end.WentBack? ==>
          && Targets(d, failed) != [] && Routed(d, now, Targets(d, failed))
          && now.saved == SettledState(d, Targets(d, failed), "")
          && (GoodTargets(d, failed, Targets(d, failed)) ==> Settled(d, now, Targets(d, failed))))
    && (end.Discarded? || end.NotStarted? ==>
          && now.accepted == found.accepted && Settled(d, now, d.olds)
          && (now.saved == found.saved || now.saved == EarlyState(d)
              || (end.Discarded? && now.saved == SettledState(d, d.olds, ""))))
    && (end.WentBack? || end.AbortFailed? ==> AllFit(d, failed, Targets(d, failed)))
    && ServesProven(d, now, now.accepted)
    && (Serves(d, now, now.accepted)
        || ((end.WentBack? || end.AbortFailed?) && exists t :: t in Targets(d, failed) && t.id in failed.stopped))
  }

  // ------------------------------------------------------ what a failure leaves

  lemma LinearPointsStep(d: Deployment, p: Point, step: Step)
    requires d.strategy.Linear? && Allowed(d, p, step) && (p.Start? || OnLinear(p) || p.Finish?)
    ensures var q := Next(d, p, step); OnLinear(q) || q.Finish? || q.Done? || q == Failed(p)
  {
    hide StepUpstream, NewOnly, SwapState, FreshState, FinishedState, NextBlueGreen, NextBack, GoingBack;
  }

  /** A linear run is at its start, on its own points, or at an end. */
  lemma {:induction false} LinearPoints(d: Deployment, log: Log)
    requires d.strategy.Linear? && Path(d, Start, log).Some?
    ensures var p := Path(d, Start, log).value;
      var at := if p.Failed? then p.at else p;
      at.Start? || OnLinear(at) || at.Finish? || p.Done?
  {
    hide Next;
    if log.Then? {
      LinearPoints(d, log.before);
      LinearPointsStep(d, Path(d, Start, log.before).value, log.last);
    }
  }

  /** Every target of an abort is still there, and is old or passed its check. */
  lemma LinearTargetsFit(d: Deployment, l: Listing, p: Point, s: World)
    requires WellFormed(d) && d.strategy.Linear? && s in Possible(d, l, p) && (OnLinear(p) || p.Finish?)
    ensures AllFit(d, s, Targets(d, s))
  {
    hide Live, Targets, SwapInv, SwapMid, WellFormed, Trusted, Distinct;
    LinearTargets(d, l, p, s);
    if p.Swap? {
      TrustedTargets(d, p.i, p.phase, s);
      SwapFit(d, p.i, s);
    } else {
      LinearTailTrusted(d, l, p, s);
      AllOfExpected(d, s);
    }
  }

  lemma AllOfExpected(d: Deployment, s: World)
    requires GoodTargets(d, s, d.news[..d.Replacements()])
    ensures AllFit(d, s, Expected(d, d.Replacements(), s.existing))
  {
    forall t | t in d.news[..d.Replacements()] ensures Fit(d, s, t) {
      assert Trusted(d, s, t);
    }
  }

  lemma SwapFit(d: Deployment, i: nat, s: World)
    requires i < d.Replacements() && forall c :: c in d.news[..i] + d.olds[i + 1..] ==> Trusted(d, s, c)
    ensures AllFit(d, s, Expected(d, i, s.existing))
  {
    forall t | t in Expected(d, i, s.existing) ensures Fit(d, s, t) {
      if t in d.news[..i] + d.olds[i + 1..] {
        assert Trusted(d, s, t);
      } else {
        assert t == d.olds[i] && t.id in s.existing;
      }
    }
  }

  lemma SetTargetsFit(d: Deployment, p: Point, s: World)
    requires WellFormed(d) && !d.strategy.Linear? && s in Possible(d, OwnListing(d), p) && Midway(p)
    ensures AllFit(d, s, Targets(d, s))
  {
    hide Inv, Targets, WellFormed;
    SetTargets(d, OwnListing(d), p, s);
    LeftHas(d.olds, s.existing);
  }

  lemma {:induction false} SurvivingMembers(known: map<string, Container>, ids: seq<string>, existing: set<string>)
    ensures forall t :: t in Surviving(known, ids, existing) ==>
      t.id in existing && exists i :: 0 <= i < |ids| && ids[i] in known && known[ids[i]] == t
  {
    if ids != [] {
      var rest := ids[..|ids| - 1];
      SurvivingMembers(known, rest, existing);
      forall t | t in Surviving(known, ids, existing)
        ensures t.id in existing && exists i :: 0 <= i < |ids| && ids[i] in known && known[ids[i]] == t
      {
        if t in Surviving(known, rest, existing) {
          var i :| 0 <= i < |rest| && rest[i] in known && known[rest[i]] == t;
          assert ids[i] == rest[i];
        } else {
          assert ids[|ids| - 1] in known;
        }
      }
    }
  }

  lemma {:induction false} IndexMembers(cs: seq<Container>)
    ensures forall id :: id in Index(cs) ==> Index(cs)[id] in cs && Index(cs)[id].id == id
  {
    if cs != [] {
      IndexMembers(cs[..|cs| - 1]);
    }
  }

  /** A record that names none of the new containers. */
  predicate Older(d: Deployment, ds: DeploymentState) {
    forall i, j :: 0 <= i < |ds.stable| && 0 <= j < |d.news| ==> ds.stable[i] != d.news[j].id
  }

  lemma StartTargetsFit(d: Deployment, s: World)
    requires WellFormed(d) && Ready(d, s) && Older(d, s.saved)
    ensures AllFit(d, s, Targets(d, s))
  {
    hide Live, Index, Surviving, Distinct;
    var known := Index(d.olds + d.news);
    var ids := if s.saved.stable == [] then Ids(d.olds) else s.saved.stable;
    IndexMembers(d.olds + d.news);
    SurvivingMembers(known, ids, s.existing);
    forall t | t in Targets(d, s) ensures Fit(d, s, t) {
      var i :| 0 <= i < |ids| && ids[i] in known && known[ids[i]] == t;
      forall j | 0 <= j < |d.news| ensures d.news[j] != t {
        assert d.news[j] in d.news;
        assert s.saved.stable == [] ==> d.olds[i] in d.olds;
        assert ids[i] != d.news[j].id;
      }
      assert t in d.olds;
    }
  }

  /** Wherever a strategy stops short, traffic is served, and every target of the
      abort is still there and is old or passed its health check. */
  lemma StoppedShort(d: Deployment, start: World, log: Log)
    requires WellFormed(d) && d.config.Validated() && Ready(d, start) && Older(d, start.saved)
    requires Path(d, Start, log).Some?
    requires var p := Path(d, Start, log).value; p.Failed? || !Ended(p)
    ensures var s := Replay(start, log);
      && Serves(d, s, s.accepted)
      && AllFit(d, s, Targets(d, s))
  {
    hide Live, Inv, Path, Replay, WellFormed, Serves, Targets, Trusted, Older, Ready, EveryStepSafe;
    hide Inside, OnLinear;
    var s := Replay(start, log);
    var p := Path(d, Start, log).value;
    assert start in Possible(d, OwnListing(d), Start) by { ReadyIsPossible(d, start); }
    RunIsSafe(d, OwnListing(d), Start, start, log);
    ReadyServes(d, start);
    TrafficIsServed(d, start, log, log);
    if p == Start || p == Failed(Start) {
      StartStaysReady(d, start, log);
      StartTargetsFit(d, s);
    } else if d.strategy.Linear? {
      LinearPoints(d, log);
      assert s in Possible(d, OwnListing(d), if p.Failed? then p.at else p) by { PossibleAt(d, p, s); }
      LinearTargetsFit(d, OwnListing(d), if p.Failed? then p.at else p, s);
    } else {
      RunInside(d, start, log);
      InsideIsMidway(p);
      SetTargetsFit(d, p, s);
    }
  }

  lemma ReadyIsPossible(d: Deployment, s: World)
    requires Ready(d, s)
    ensures s in Possible(d, OwnListing(d), Start)
  {
  }

  lemma PossibleAt(d: Deployment, p: Point, s: World)
    requires s in Possible(d, OwnListing(d), p)
    ensures p.Failed? ==> s in Possible(d, OwnListing(d), p.at)
  {
  }

  lemma InsideIsMidway(p: Point)
    requires Inside(p)
    ensures Midway(p)
    decreases p
  {
    if p.Failed? {
      InsideIsMidway(p.at);
    }
  }

  /** A run that is still at its start, or failed there, has changed nothing. */
  lemma StartStaysReady(d: Deployment, start: World, log: Log)
    requires Path(d, Start, log) == Some(Start) || Path(d, Start, log) == Some(Failed(Start))
    ensures Replay(start, log) == start
  {
    hide Allowed, Next;
  }

  lemma AfterRelease(d: Deployment, start: World, log: Log)
    requires WellFormed(d) && d.config.Validated() && Ready(d, start) && Path(d, Start, log).Some?
    ensures var s := Replay(start, log);
      && Serves(d, s, s.accepted) && ServesProven(d, s, s.accepted)
      && (Path(d, Start, log).value.Done? ==>
            && Live(s.accepted.servers) == Addrs(d.news) && AllUsable(s, d.news) && s.saved == FinishedState(d)
            && (Surplus(d) == [] ==> Settled(d, s, d.news)))
      && (Path(d, Start, log).value.RolledBack? ==>
            Settled(d, s, d.olds) && s.saved.status == Idle && s.saved.stable == Ids(d.olds))
  {
    hide Live, Path, Replay, WellFormed, Serves, EveryStepSafe, Facts;
    RunIsSafe(d, OwnListing(d), Start, start, log);
    ReadyServes(d, start);
    TrafficIsServed(d, start, log, log);
    var p, s := Path(d, Start, log).value, Replay(start, log);
    ServesIsProven(d, s);
    if p.Done? {
      DoneMeans(d, s);
    }
  }

  lemma DoneMeans(d: Deployment, s: World)
    requires WellFormed(d) && s in Possible(d, OwnListing(d), Done)
    ensures Live(s.accepted.servers) == Addrs(d.news) && AllUsable(s, d.news) && s.saved == FinishedState(d)
    ensures Surplus(d) == [] ==> Settled(d, s, d.news)
  {
    hide Live, WellFormed;
    NotOld(d, |d.olds|);
    assert d.olds[..|d.olds|] == d.olds;
    NotOld(d, d.Replacements());
    assert Addrs([]) == [];
  }

  /** What an abort that began in a served world leaves. */
  lemma AfterAbort(d: Deployment, s: World, targets: seq<Container>, log: Log)
    requires WellFormed(d) && Serves(d, s, s.accepted) && targets != [] && AllFit(d, s, targets)
    requires Path(d, Abort(targets), log).Some?
    ensures var after := Replay(s, log);
      && ServesProven(d, after, after.accepted)
      && (GoodTargets(d, s, targets) ==> Serves(d, after, after.accepted))
      && (Path(d, Abort(targets), log) == Some(Aborted(targets)) ==>
            && Routed(d, after, targets) && after.saved == SettledState(d, targets, "")
            && (GoodTargets(d, s, targets) ==> Settled(d, after, targets)))
  {
    hide Live, Path, Replay, WellFormed, Serves, ServesProven, TouchesOnly, EveryStepFits, EveryStepSafe, Routed;
    assert ServesProven(d, s, s.accepted) by { ServesIsProven(d, s); }
    AbortIsSafe(d, OwnListing(d), s, targets, log);
    if GoodTargets(d, s, targets) {
      TrafficIsServed(d, s, log, log);
    }
    if Path(d, Abort(targets), log) == Some(Aborted(targets)) {
      AbortEndsAtTargets(d, s, targets, log);
    }
  }

  lemma ServesIsProven(d: Deployment, s: World)
    requires Serves(d, s, s.accepted)
    ensures ServesProven(d, s, s.accepted)
  {
    forall a | a in Live(s.accepted.servers) ensures exists c :: Proven(d, s, c) && c.addr == a {
      var c :| Trusted(d, s, c) && c.addr == a;
    }
  }

  lemma DiscardServes(d: Deployment, s: World, after: World)
    requires WellFormed(d) && Ready(d, s)
    requires after.accepted == s.accepted && after.busy == s.busy
    requires forall c :: c in d.olds && s.Usable(c) ==> after.Usable(c)
    ensures Serves(d, after, after.accepted) && ServesProven(d, after, after.accepted) && Settled(d, after, d.olds)
  {
    hide Live;
    forall c | c in d.olds ensures Trusted(d, after, c) {
      assert s.Usable(c);
    }
    ServesList(d, after, after.accepted, d.olds);
    ServesIsProven(d, after);
  }

  /** The world once the early state was saved, if it was. */
  function Opened(d: Deployment, found: World, early: bool): World {
    if early then
      found.(saved := DeploymentState(d.service, InProgress, d.strategy.Tag(), 0, [], [], "", "", ""))
    else found
  }

  /** What a strategy did that ended like this: a run to the end that its outcome
      names, or one that stopped short in `failed`, and for a reason. `bars` counts
      what stood in its way. */
  ghost predicate Ran(d: Deployment, end: End, begun: World, run: Log, bars: nat, failed: World, now: World) {
    if end.Released? then Path(d, Start, run) == Some(Done) && now == Replay(begun, run)
    else if end.GaveUp? then Path(d, Start, run) == Some(RolledBack(end.reason)) && now == Replay(begun, run)
    else
      && Short(Path(d, Start, run)) && failed == Replay(begun, run)
      && (Path(d, Start, run).value.Failed? || bars > 0 || Lacks(d))
  }

  /** What the abort did that began in `failed`: it got to its end, or it had nothing
      to go back to, could not read the state, or an effect failed. */
  ghost predicate Aborts(w: Platform, d: Deployment, end: End, failed: World, bars: nat)
    reads w
  {
    var targets := Targets(d, failed);
    && w.Valid() && w.start == failed && bars <= w.bars
    && (end.WentBack? ==> targets != [] && AtPoint(w, d, Abort(targets), Aborted(targets)))
    && (end.AbortFailed? ==>
          && Path(d, Abort(targets), w.log).Some?
          && (targets == [] || w.bars > bars || !AllTook(w.log)))
  }

  /** A release of a service that is ready for it. `built` says whether its provider
      could be built, `reachable` whether the new containers could be reached.
      Whichever way it ends, the proxy serves containers that are old or passed their
      health check, and they run; the one exception to that is an abort that finds on
      record a container that was stopped but not removed, and even then it leaves the
      proxy and the saved state with exactly the containers on record. `early` says
      whether the early state was saved, `run` what the strategy did and `bars` how often
      something without an effect stood in its way; `seen` is what a watch is told. */
  method Deploy(w: Platform, d: Deployment, built: bool, reachable: bool, seen: Delivery)
    returns (end: End, failed: World, ghost early: bool, ghost run: Log, ghost bars: nat)
    requires WellFormed(d) && d.config.Validated() && Ready(d, w.Now()) && Older(d, w.saved)
    modifies w
    ensures end.NotStarted? <==> !built
    ensures end.Discarded? <==> built && !reachable
    ensures end.NotStarted? ==> w.Now() == Opened(d, old(w.Now()), early)
    ensures end.Discarded? ==>
      && w.Valid() && w.start == Opened(d, old(w.Now()), early)
      && |Ops(w.log)| == 2 * |d.news| + 1 && Removes(Ops(w.log), d.news)
      && Ops(w.log)[2 * |d.news|] == Op.Save(SettledState(d, d.olds, ""))
    ensures built && reachable ==> Ran(d, end, Opened(d, old(w.Now()), early), run, bars, failed, w.Now())
    ensures end.Released? && d.strategy.BlueGreen? && d.config.watch ==> BlueGreenStrategy.Passes(d, seen)
    ensures end.WentBack? || end.AbortFailed? ==> Aborts(w, d, end, failed, bars)
    ensures Ends(d, end, old(w.Now()), failed, w.Now())
  {
    hide Settled, Surplus, Live, Path, Replay, WellFormed, Serves, ServesProven, Routed, AllFit, Targets, Trusted,
      GoodTargets, FinishedState, Ready, Removes, SettledState;
    hide Older, AllUsable, Lacks, BlueGreenStrategy.Passes;
    ghost var found := w.Now();
    run, bars := Empty, 0;
    w.BeginRun();
    failed := w.Now();
    var saved := w.Save(EarlyState(d));
    early := saved;
    EarlySave(d, found, w.log, early);
    if !built {
      DiscardServes(d, w.Now(), w.Now());
      return NotStarted, failed, early, run, bars;
    }
    if !reachable {
      ghost var before := w.Now();
      DiscardNew(w, d);
      DiscardServes(d, before, w.Now());
      return Discarded, failed, early, run, bars;
    }
    var r := RunStrategy(w, d, seen);
    run, bars := w.log, w.bars;
    AfterRelease(d, w.start, w.log);
    if r.Undone? {
      return GaveUp(r.reason), failed, early, run, bars;
    }
    if r.Ok? {
      return Released, failed, early, run, bars;
    }
    assert Short(Path(d, Start, run));
    StoppedShort(d, w.start, w.log);
    failed := w.Now();
    var ok, targets := AbortDeployment(w, d);
    if targets != [] {
      AfterAbort(d, failed, targets, w.log);
    }
    if !GoodTargets(d, failed, targets) {
      NotGood(d, failed, targets);
    }
    end := if ok then WentBack else AbortFailed;
  }

  lemma EarlySave(d: Deployment, s: World, log: Log, ok: bool)
    requires Ready(d, s) && Older(d, s.saved) && log == Then(Empty, Step(Save(EarlyState(d)), ok))
    ensures Ready(d, Replay(s, log)) && Older(d, Replay(s, log).saved)
    ensures Replay(s, log).accepted == s.accepted
    ensures Replay(s, log).saved == s.saved || Replay(s, log).saved == EarlyState(d)
    ensures Replay(s, log) == Opened(d, s, ok)
  {
    hide Live;
    assert Replay(s, log) == Apply(s, log.last);
  }

  lemma NotGood(d: Deployment, s: World, targets: seq<Container>)
    requires !GoodTargets(d, s, targets) && AllFit(d, s, targets)
    ensures targets == [] || exists t :: t in targets && t.id in s.stopped
  {
    if targets != [] {
      var t :| t in targets && !Trusted(d, s, t);
      assert Fit(d, s, t);
    }
  }

  // ----------------------------------------------------- one release after another

  /** A service is ready for a release exactly when the proxy serves the old
      containers and nothing else, no request is anywhere else if the release drains,
      and the old and the new ones all run. */
  lemma ReadyIs(d: Deployment, s: World)
    requires WellFormed(d)
    ensures Ready(d, s) <==> Settled(d, s, d.olds) && AllUsable(s, d.news)
  {
    hide Live, Distinct;
    assert Addrs([]) == [];
  }

  /** The world once these containers were created and started. */
  function Started(s: World, cs: seq<Container>): World {
    s.(existing := s.existing + IdSet(cs), stopped := s.stopped - IdSet(cs))
  }

  /** Which containers serve after a release that ended like this. */
  function ServingAfter(d: Deployment, end: End, failed: World): seq<Container> {
    if end.Released? then d.news else if end.WentBack? then Targets(d, failed) else d.olds
  }

  /** An end from which the next release can go on: the abort, if there was one,
      went back to containers that run, and no request is anywhere but at those that
      serve. */
  predicate Clean(d: Deployment, end: End, failed: World, now: World) {
    && !end.AbortFailed?
    && (end.WentBack? ==> GoodTargets(d, failed, Targets(d, failed)))
    && Quiet(now, ServingAfter(d, end, failed))
  }

  /** If the release drains, the requests do not decide: only the old containers a
      linear release had too many of can still hold some. */
  lemma CleanWhenDrained(d: Deployment, end: End, found: World, failed: World, now: World)
    requires Ends(d, end, found, failed, now) && d.Drains()
    requires !end.AbortFailed? && (end.WentBack? ==> GoodTargets(d, failed, Targets(d, failed)))
    requires end.Released? ==> Surplus(d) == []
    ensures Clean(d, end, failed, now)
  {
    hide Live, Targets, GoodTargets, Serves, ServesProven, AllFit, Surplus;
  }

  /** Every clean end of a release leaves the service ready for the next one, so
      what is promised of one release holds of any number of them in a row. */
  lemma ReadyAgain(d: Deployment, end: End, found: World, failed: World,
                   now: World, next: Deployment)
    requires Ends(d, end, found, failed, now) && Clean(d, end, failed, now)
    requires WellFormed(next) && next.olds == ServingAfter(d, end, failed) && Older(next, found.saved)
    ensures Ready(next, Started(now, next.news)) && Older(next, Started(now, next.news).saved)
  {
    hide Live, WellFormed, Targets, GoodTargets, Ready, Serves, Trusted, Surplus;
    var s := Started(now, next.news);
    assert Settled(next, s, next.olds) && AllUsable(s, next.news);
    ReadyIs(next, s);
    NamesNoNew(next);
    assert SettledState(d, next.olds, "").stable == Ids(next.olds);
  }

  /** One release of a service: the world it found, the one its abort began in if
      there was one, and the one it left. */
  datatype Episode = Episode(d: Deployment, end: End, found: World, failed: World, now: World)

  /** The releases of a service, one after the other: each keeps what one release
      promises and goes on from the containers that its forerunner left serving. */
  ghost predicate History(es: seq<Episode>) {
    && (forall i :: 0 <= i < |es| ==> Ends(es[i].d, es[i].end, es[i].found, es[i].failed, es[i].now))
    && (forall i, j :: 0 <= i && j == i + 1 < |es| ==>
          es[j].d.olds == ServingAfter(es[i].d, es[i].end, es[i].failed) &&
            es[j].found == Started(es[i].now, es[j].d.news))
  }

  /** Whether a release can go on from what its forerunner left. */
  predicate GoesOn(e: Episode, next: Deployment) {
    && Clean(e.d, e.end, e.failed, e.now) && next.olds == ServingAfter(e.d, e.end, e.failed)
    && WellFormed(next) && next.config.Validated() && Older(next, e.found.saved)
  }

  /** The life of a service: release after release, each begun with new containers
      beside those that serve, up to the first that cannot go on from what the one
      before it left. Every one of them finds the service ready and keeps what one
      release promises. */
  method Releases(w: Platform, releases: seq<Deployment>) returns (es: seq<Episode>)
    requires releases != [] && WellFormed(releases[0]) && releases[0].config.Validated()
    requires Ready(releases[0], w.Now()) && Older(releases[0], w.saved)
    modifies w
    ensures 0 < |es| <= |releases| && es[0].found == old(w.Now()) && History(es)
    ensures forall i :: 0 <= i < |es| ==> es[i].d == releases[i]
    ensures |es| < |releases| ==> !GoesOn(es[|es| - 1], releases[|es|])
  {
    hide WellFormed, Ready, Older, Ends, Clean, ServingAfter;
    es := [];
    for i := 0 to |releases|
      invariant |es| == i && History(es) && (i == 0 ==> w.Now() == old(w.Now()))
      invariant forall k :: 0 <= k < i ==> es[k].d == releases[k]
      invariant i > 0 ==> es[0].found == old(w.Now()) && w.Now() == es[i - 1].now
    {
      var d := releases[i];
      if i > 0 {
        if !GoesOn(es[i - 1], d) {
          return;
        }
        var e := es[i - 1];
        ReadyAgain(e.d, e.end, e.found, e.failed, e.now, d);
        w.Create(IdSet(d.news));
      }
      var found := w.Now();
      var built: bool, reachable: bool, requests: seq<Entry>, lost: bool, over: bool := *, *, *, *, *;
      var end, failed, _, _, _ := Deploy(w, d, built, reachable, Delivery(requests, lost, over));
      es := es + [Episode(d, end, found, failed, w.Now())];
    }
  }

  lemma NamesNoNew(d: Deployment)
    requires WellFormed(d)
    ensures forall ds: DeploymentState :: ds.stable == Ids(d.olds) || ds.stable == [] ==> Older(d, ds)
  {
    forall i, j | 0 <= i < |d.olds| && 0 <= j < |d.news| ensures Ids(d.olds)[i] != d.news[j].id {
      assert d.olds[i] in d.olds && d.news[j] in d.news;
    }
  }

  /** There is such a service, whatever the release. */
  lemma SomeServiceIsReady(d: Deployment)
    requires WellFormed(d)
    ensures exists s: World :: Ready(d, s) && Older(d, s.saved)
  {
    var s := Started(Started(World({}, {}, {}, {}, OldOnly(d, ""), EarlyState(d)), d.olds), d.news);
    LiveOfOldOnly(d, "", "");
    ReadyIs(d, s);
    NamesNoNew(d);
    assert Ready(d, s) && Older(d, s.saved);
  }
}
