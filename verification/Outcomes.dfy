/** How runs end when every effect takes, and what a crash leaves behind. */
module Outcomes {
  import opened Rollout
  import opened Machine
  import opened Promise
  import opened Safety

  // ------------------------------------------------- when every effect takes

  ghost predicate Gone(s: World, cs: seq<Container>) {
    forall c :: c in cs ==> c.id !in s.existing
  }

  /** The containers whose removal lies behind each point. */
  function Behind(d: Deployment, p: Point): seq<Container> {
    match p
    case Swap(i, phase) => if i < d.Replacements() then d.olds[..if phase.Record? then i + 1 else i] else []
    case Extra(_) => d.olds[..d.Replacements()]
    case Settle => d.olds[..d.Replacements()]
    case SettlePlain => d.olds[..d.Replacements()]
    case Finish => if d.strategy.Linear? then d.olds[..d.Replacements()] else d.olds
    case Done => if d.strategy.Linear? then d.olds[..d.Replacements()] else d.olds
    case Sweep(why, j, _) => if j <= |Swept(d, why)| then Swept(d, why)[..j] else []
    case CloseUndo(_) => d.news
    case CloseRoll(_) => d.news
    case RolledBack(_) => d.news
    case CloseAbort(targets) => Victims(d.news, targets)
    case Aborted(targets) => Victims(d.news, targets)
    case _ => []
  }

  /** A run stays on the points of its own strategy. */
  predicate OwnPoint(d: Deployment, p: Point) {
    if d.strategy.Linear? then !OnPromote(p) && !OnBlueGreen(p) && !OnCanary(p) &&
      !(p.Sweep? && (p.why.Retire? || p.why.Undo?))
    else !OnLinear(p)
  }

  lemma BehindLinear(d: Deployment, p: Point, s: World, step: Step)
    requires OnLinear(p) && OwnPoint(d, p) && Allowed(d, p, step) && step.ok && Gone(s, Behind(d, p))
    ensures Gone(Apply(s, step), Behind(d, Next(d, p, step))) && OwnPoint(d, Next(d, p, step))
  {
    hide Live, StepUpstream, SwapState, NewOnly, GoingBack, AllowedBlueGreen, AllowedBack, NextBlueGreen;
    hide NextBack;
    if p.Swap? && p.phase.RemoveOld? {
      assert d.olds[..p.i + 1] == d.olds[..p.i] + [d.olds[p.i]];
    }
  }

  lemma BehindSweep(d: Deployment, p: Point, s: World, step: Step)
    requires p.Sweep? && OwnPoint(d, p) && Allowed(d, p, step) && step.ok && Gone(s, Behind(d, p))
    ensures Gone(Apply(s, step), Behind(d, Next(d, p, step))) && OwnPoint(d, Next(d, p, step))
  {
    hide Live, Victims;
    var cs := Swept(d, p.why);
    assert cs[..p.j + 1] == cs[..p.j] + [cs[p.j]];
    if p.j + 1 == |cs| {
      assert cs[..p.j + 1] == cs;
    }
  }

  lemma BehindBlueGreen(d: Deployment, p: Point, s: World, step: Step)
    requires OnBlueGreen(p) && OwnPoint(d, p) && Allowed(d, p, step) && step.ok && Gone(s, Behind(d, p))
    ensures Gone(Apply(s, step), Behind(d, Next(d, p, step))) && OwnPoint(d, Next(d, p, step))
  {
    hide Live, OldOnly, NewOnly, SplitUpstream, PreviewUpstream, FreshState, Errors;
  }

  lemma BehindBack(d: Deployment, p: Point, s: World, step: Step)
    requires OnBack(p) && OwnPoint(d, p) && Allowed(d, p, step) && step.ok && Gone(s, Behind(d, p))
    ensures Gone(Apply(s, step), Behind(d, Next(d, p, step))) && OwnPoint(d, Next(d, p, step))
  {
    hide Live, OldOnly, TargetUpstream, SettledState, Victims, AddrSet, AllowedLinear, AllowedBlueGreen;
    hide NextLinear, NextBlueGreen, GoingBack;
  }

  lemma BehindCanary(d: Deployment, p: Point, s: World, step: Step)
    requires OnCanary(p) && OwnPoint(d, p) && Allowed(d, p, step) && step.ok && Gone(s, Behind(d, p))
    ensures Gone(Apply(s, step), Behind(d, Next(d, p, step))) && OwnPoint(d, Next(d, p, step))
  {
    hide Live, SplitUpstream, FreshState, WeightState, Victims, AddrSet, AllowedLinear, AllowedBlueGreen;
    hide AllowedBack, NextLinear, NextBlueGreen, NextBack, GoingBack;
  }

  lemma BehindBegin(d: Deployment, p: Point, s: World, step: Step)
    requires p.Start? || p.Healthy?
    requires OwnPoint(d, p) && Allowed(d, p, step) && step.ok && Gone(s, Behind(d, p))
    ensures Gone(Apply(s, step), Behind(d, Next(d, p, step))) && OwnPoint(d, Next(d, p, step))
  {
    hide Live, FreshState, AddrSet, AllowedLinear, AllowedBlueGreen, AllowedBack, NextLinear;
    hide NextBlueGreen, NextBack, GoingBack;
  }

  lemma BehindOther(d: Deployment, p: Point, s: World, step: Step)
    requires p.Promote? || p.PromoteDrain? || p.PromotePlain? || p.Finish?
    requires OwnPoint(d, p) && Allowed(d, p, step) && step.ok && Gone(s, Behind(d, p))
    ensures Gone(Apply(s, step), Behind(d, Next(d, p, step))) && OwnPoint(d, Next(d, p, step))
  {
    hide Live, BackupUpstream, NewOnly, FreshState, FinishedState, AddrSet, AllowedLinear;
    hide AllowedBlueGreen, AllowedBack, NextLinear, NextBlueGreen, NextBack, GoingBack;
  }

  lemma BehindStep(d: Deployment, p: Point, s: World, step: Step)
    requires Allowed(d, p, step) && step.ok && Gone(s, Behind(d, p)) && OwnPoint(d, p)
    ensures Gone(Apply(s, step), Behind(d, Next(d, p, step))) && OwnPoint(d, Next(d, p, step))
  {
    hide Behind, Next, Apply;
    if OnLinear(p) {
      BehindLinear(d, p, s, step);
    } else if p.Sweep? {
      BehindSweep(d, p, s, step);
    } else if OnBlueGreen(p) {
      BehindBlueGreen(d, p, s, step);
    } else if OnBack(p) {
      BehindBack(d, p, s, step);
    } else if OnCanary(p) {
      BehindCanary(d, p, s, step);
    } else if p.Start? || p.Healthy? {
      BehindBegin(d, p, s, step);
    } else {
      BehindOther(d, p, s, step);
    }
  }

  /** When every effect takes, every container a run is done with is gone. */
  lemma {:induction false} CompletedRunRemoves(d: Deployment, entry: Point, start: World, log: Log)
    requires AllTook(log) && Path(d, entry, log).Some? && Gone(start, Behind(d, entry)) && OwnPoint(d, entry)
    ensures Gone(Replay(start, log), Behind(d, Path(d, entry, log).value)) && OwnPoint(d, Path(d, entry, log).value)
  {
    hide Behind, Next, Allowed, Apply, OwnPoint;
    if log.Then? {
      CompletedRunRemoves(d, entry, start, log.before);
      BehindStep(d, Path(d, entry, log.before).value, Replay(start, log.before), log.last);
    }
  }

  /** Capacity. With no more old containers than new ones, from the config of
      replacement `i` until it is on record exactly as many containers take
      traffic as before the release: the first `i + 1` new ones, all of which
      passed their health check, and the old ones still to come; and the record
      names the same containers in the same order. */
  lemma LinearCapacity(d: Deployment, start: World, log: Log, i: nat, phase: Phase)
    requires WellFormed(d) && d.config.Validated() && d.strategy.Linear? && Ready(d, start) && |d.olds| <= |d.news|
    requires Path(d, Start, log) == Some(Swap(i, phase)) && !phase.Health? && !phase.Route?
    ensures i < d.Replacements()
    ensures var s := Replay(start, log);
      var serving := d.news[..i + 1] + d.olds[i + 1..];
      && Live(s.accepted.servers) == Addrs(serving) && |serving| == |d.olds|
      && (forall c :: c in d.news[..i + 1] ==> c.id in s.healthy)
      && SwapState(d, i + 1).stable == Ids(serving)
  {
    hide Live, Path, Replay, WellFormed;
    RunIsSafe(d, OwnListing(d), Start, start, log);
    var serving := d.news[..i + 1] + d.olds[i + 1..];
    assert Ids(serving) == Ids(d.news[..i + 1]) + Ids(d.olds[i + 1..]);
    assert i + 1 == |d.olds| ==> Ids(d.olds[i + 1..]) == [];
  }

  /** A linear release that completes with every effect leaves exactly the old
      containers beyond the number of new ones running: none of them unless there
      were more old than new. Those it leaves are on no record: neither the last
      replacement's nor the final one lists them. */
  lemma LinearSurplus(d: Deployment, start: World, log: Log)
    requires WellFormed(d) && d.config.Validated() && d.strategy.Linear? && Ready(d, start)
    requires AllTook(log) && Path(d, Start, log) == Some(Done)
    ensures forall o :: o in d.olds ==> (o.id in Replay(start, log).existing <==> o in d.olds[d.Replacements()..])
    ensures d.olds[d.Replacements()..] == [] <==> |d.olds| <= |d.news|
    ensures forall o :: o in d.olds ==> o.id !in Replay(start, log).saved.stable
    ensures |d.olds| > |d.news| ==> forall o :: o in d.olds ==> o.id !in SwapState(d, d.Replacements()).stable
  {
    hide Live, Path, Replay, Inv, WellFormed;
    RunIsSafe(d, OwnListing(d), Start, start, log);
    CompletedRunRemoves(d, Start, start, log);
    SurplusAtEnd(d, Replay(start, log));
    OldsAreNotNamed(d);
  }

  lemma OldsAreNotNamed(d: Deployment)
    requires WellFormed(d)
    ensures forall o :: o in d.olds ==> o.id !in Ids(d.news)
    ensures |d.olds| > |d.news| ==> SwapState(d, d.Replacements()).stable == Ids(d.news)
  {
    forall o | o in d.olds ensures o.id !in Ids(d.news) {
      forall i | 0 <= i < |d.news| ensures Ids(d.news)[i] != o.id {
        assert d.news[i] in d.news;
      }
    }
    assert d.news[..|d.news|] == d.news;
  }

  lemma SurplusAtEnd(d: Deployment, s: World)
    requires WellFormed(d) && d.strategy.Linear? && s in Possible(d, OwnListing(d), Done) && Gone(s, Behind(d, Done))
    ensures forall o :: o in d.olds ==> (o.id in s.existing <==> o in d.olds[d.Replacements()..])
    ensures s.saved.stable == Ids(d.news)
  {
    hide Possible, WellFormed;
    var r := d.Replacements();
    assert d.olds == d.olds[..r] + d.olds[r..];
    EitherSide(d, r);
    DoneFacts(d, s);
  }

  lemma DoneFacts(d: Deployment, s: World)
    requires d.strategy.Linear? && s in Possible(d, OwnListing(d), Done)
    ensures forall c :: Mine(d, c) && c !in d.olds[..d.Replacements()] ==> s.Usable(c)
    ensures s.saved.stable == Ids(d.news)
  {
    hide Live;
  }

  /** No old container is both among the replaced and among the surplus. */
  lemma EitherSide(d: Deployment, r: nat)
    requires WellFormed(d) && r <= |d.olds|
    ensures forall o :: o in d.olds[r..] ==> o !in d.olds[..r]
  {
    forall o | o in d.olds[r..] ensures o !in d.olds[..r] {
      var j :| 0 <= j < |d.olds| - r && d.olds[r..][j] == o;
      forall i | 0 <= i < r ensures d.olds[i] != o {
        assert d.olds[i].id != d.olds[r + j].id;
      }
    }
  }

  // ------------------------------------------------------ an undone preview

  /** Whether the first effect of a run took. */
  predicate FirstTook(log: Log) {
    log.Then? && (if log.before.Empty? then log.last.ok else FirstTook(log.before))
  }

  lemma UndoStep(d: Deployment, reason: string, p: Point, s: World, step: Step)
    requires Allowed(d, p, step) && (p == Withdraw(reason) || (p.Sweep? && p.why == Undo(reason)) ||
      p == CloseUndo(reason))
    ensures var q := Next(d, p, step);
      (q.Sweep? && q.why == Undo(reason)) || q == CloseUndo(reason) || q == RolledBack(reason) ||
        q == Failed(CloseUndo(reason))
    ensures Apply(s, step).accepted == if p.Withdraw? && step.ok then OldOnly(d, d.config.affinity) else s.accepted
  {
    hide OldOnly, FreshState, Live;
  }

  /** An undone release leaves the preview in the proxy's config exactly when
      withdrawing it failed: nothing later in the undo touches the config, while
      the new containers it points to are removed. */
  lemma {:induction false} PreviewAfterUndo(d: Deployment, reason: string, s: World, log: Log)
    requires Path(d, Withdraw(reason), log).Some?
    ensures var p := Path(d, Withdraw(reason), log).value;
      && (p == Withdraw(reason) <==> log == Empty)
      && (p == Withdraw(reason) || (p.Sweep? && p.why == Undo(reason)) || p == CloseUndo(reason) ||
        p == RolledBack(reason) || p == Failed(CloseUndo(reason)))
    ensures Replay(s, log).accepted == if FirstTook(log) then OldOnly(d, d.config.affinity) else s.accepted
    ensures s.accepted.preview != [] ==> (Replay(s, log).accepted.preview == [] <==> FirstTook(log))
  {
    hide Allowed, Next, OldOnly;
    assert OldOnly(d, d.config.affinity).preview == [] by { OldOnlyHasNone(d); }
    if log.Then? {
      PreviewAfterUndo(d, reason, s, log.before);
      var p := Path(d, Withdraw(reason), log.before).value;
      assert !Ended(p) by { NoStepAtEnd(d, p, log.last); }
      UndoStep(d, reason, p, Replay(s, log.before), log.last);
    }
  }

  lemma OldOnlyHasNone(d: Deployment)
    ensures OldOnly(d, d.config.affinity).preview == []
  {
  }

  lemma NoStepAtEnd(d: Deployment, p: Point, step: Step)
    requires Allowed(d, p, step)
    ensures !Ended(p)
  {
  }

  // --------------------------------------------------------------- crashes

  /** What a crash leaves: the release is open on record with both sets listed,
      and no old container was touched. Such a release can be rolled back. */
  ghost predicate Recoverable(d: Deployment, s: World) {
    && WellFormed(d) && !d.strategy.Linear?
    && s.saved.status != Idle && s.saved.strategy == d.strategy.Tag() && s.saved.service == d.service
    && s.saved.stable == Ids(d.olds) && s.saved.canary == Ids(d.news)
    && AllUsable(s, d.olds)
  }

  /** Points that lie between the first saved state of a release and its last. */
  predicate Inside(p: Point)
    decreases p
  {
    if p.Failed? then Inside(p.at)
    else
      || OnBlueGreen(p) || OnCanary(p) || OnPromote(p) || p.Finish?
      || p.Roll? || p.RollDrain? || p.CloseRoll? || (p.Sweep? && !p.why.Discard?)
  }

  /** A state with the lists of the release, whatever else it says. */
  predicate Lists(d: Deployment, ds: DeploymentState) {
    && ds.status == InProgress && ds.strategy == d.strategy.Tag() && ds.service == d.service
    && ds.stable == Ids(d.olds) && ds.canary == Ids(d.news)
  }

  lemma SweepStaysInside(d: Deployment, p: Point, s: World, step: Step)
    requires p.Sweep? && Allowed(d, p, step) && Inside(p) && Lists(d, s.saved)
    ensures Inside(Next(d, p, step)) && Lists(d, Apply(s, step).saved)
  {
    hide Victims, Live;
  }

  lemma BlueGreenStaysInside(d: Deployment, p: Point, s: World, step: Step)
    requires OnBlueGreen(p) && !d.strategy.Linear? && Allowed(d, p, step) && Lists(d, s.saved)
    ensures var q := Next(d, p, step); q.RolledBack? || (Inside(q) && Lists(d, Apply(s, step).saved))
  {
    hide Live, OldOnly, NewOnly, SplitUpstream, PreviewUpstream, Errors;
    assert Inside(p);
  }

  lemma BackStaysInside(d: Deployment, p: Point, s: World, step: Step)
    requires OnBack(p) && Allowed(d, p, step) && Inside(p) && Lists(d, s.saved)
    ensures var q := Next(d, p, step); q.RolledBack? || (Inside(q) && Lists(d, Apply(s, step).saved))
  {
    hide Live, OldOnly, AddrSet, SettledState, Victims, AllowedLinear, AllowedBlueGreen, NextLinear;
    hide NextBlueGreen, GoingBack;
    assert Inside(p);
  }

  lemma RiseStaysInside(d: Deployment, p: Point, s: World, step: Step)
    requires !d.strategy.Linear? && Allowed(d, p, step) && (p.Start? || p.Healthy? || OnCanary(p))
    requires p.Start? || Lists(d, s.saved)
    ensures var q := Next(d, p, step); q == Failed(Start) || (Inside(q) && Lists(d, Apply(s, step).saved))
  {
    hide Live, SplitUpstream, AddrSet, AllowedLinear, AllowedBlueGreen, AllowedBack, NextLinear;
    hide NextBlueGreen, NextBack, GoingBack;
    assert p.Start? || Inside(p);
  }

  lemma EndStaysInside(d: Deployment, p: Point, s: World, step: Step)
    requires Allowed(d, p, step) && (p.Promote? || p.PromoteDrain? || p.PromotePlain? || p.Finish?) && Lists(d, s.saved)
    ensures var q := Next(d, p, step); q.Done? || (Inside(q) && Lists(d, Apply(s, step).saved))
  {
    hide Live, BackupUpstream, NewOnly, AddrSet, FinishedState, AllowedLinear, AllowedBlueGreen;
    hide AllowedBack, NextLinear, NextBlueGreen, NextBack, GoingBack;
    assert Inside(p);
  }

  lemma StaysInside(d: Deployment, p: Point, s: World, step: Step)
    requires !d.strategy.Linear? && Allowed(d, p, step)
    requires p.Start? || (Inside(p) && Lists(d, s.saved))
    ensures var q := Next(d, p, step);
      q == Failed(Start) || q.Done? || q.RolledBack? || (Inside(q) && Lists(d, Apply(s, step).saved))
  {
    hide Next, Lists, Apply;
    if p.Sweep? {
      SweepStaysInside(d, p, s, step);
    } else if OnBlueGreen(p) {
      BlueGreenStaysInside(d, p, s, step);
    } else if OnBack(p) {
      BackStaysInside(d, p, s, step);
    } else if p.Start? || p.Healthy? || OnCanary(p) {
      RiseStaysInside(d, p, s, step);
    } else {
      EndStaysInside(d, p, s, step);
    }
  }

  /** A blue-green or canary run is at its start, at an end, or inside. */
  lemma {:induction false} RunInside(d: Deployment, start: World, log: Log)
    requires !d.strategy.Linear? && Path(d, Start, log).Some?
    ensures var p := Path(d, Start, log).value;
      p == Start || p == Failed(Start) || p.Done? || p.RolledBack? || (Inside(p) && Lists(d, Replay(start, log).saved))
  {
    hide Inside, Next, Lists;
    if log.Then? {
      RunInside(d, start, log.before);
      StaysInside(d, Path(d, Start, log.before).value, Replay(start, log.before), log.last);
    }
  }

  lemma {:induction false} UntouchedStayUsable(start: World, log: Log, ids: set<string>, c: Container)
    requires TouchesOnly(log, ids) && c.id !in ids && start.Usable(c)
    ensures Replay(start, log).Usable(c)
  {
    if log.Then? {
      UntouchedStayUsable(start, log.before, ids, c);
    }
  }

  /** A blue-green or canary release that crashes anywhere after its first save,
      before it touches an old container and before it is closed, leaves a world
      it can be rolled back from. */
  lemma CrashIsRecoverable(d: Deployment, start: World, log: Log)
    requires WellFormed(d) && !d.strategy.Linear? && Ready(d, start)
    requires Path(d, Start, log).Some? && TouchesOnly(log, IdSet(d.news))
    requires var p := Path(d, Start, log).value; p != Start && p != Failed(Start) && !p.Done? && !p.RolledBack?
    ensures Recoverable(d, Replay(start, log))
  {
    hide Live, Path, Distinct, Inside, TouchesOnly;
    RunInside(d, start, log);
    forall c | c in d.olds ensures Replay(start, log).Usable(c) {
      assert start.Usable(c);
      UntouchedStayUsable(start, log, IdSet(d.news), c);
    }
  }

  /** Nothing that happens while the controller is down, or in its first sync of
      the proxy, spoils that: new containers may die, and the proxy may get any
      config. */
  lemma DowntimeKeepsRecoverable(d: Deployment, s: World, after: World)
    requires Recoverable(d, s) && after.saved == s.saved
    requires forall c :: c in d.olds ==> (s.Usable(c) ==> after.Usable(c))
    ensures Recoverable(d, after)
  {
  }
}
