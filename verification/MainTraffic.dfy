/** Requests of the main traffic that are in flight when a container is stopped: the
    promise rules them out for releases that drain, and here is exactly when a stop
    meets one in those that do not. */
module MainTraffic {
  import opened Rollout
  import opened Machine
  import opened Promise
  import opened Safety
  import opened SideTraffic
  import opened AbortRun

  function Routing(u: Upstream): set<string> {
    AddrSet(Live(u.servers))
  }

  function At(cs: seq<Container>): set<string> {
    AddrSet(Addrs(cs))
  }

  lemma AtConcat(a: seq<Container>, b: seq<Container>)
    ensures At(a + b) == At(a) + At(b)
  {
    assert Addrs(a + b) == Addrs(a) + Addrs(b);
  }

  /** Where requests may be at the points that lead to a stop. `first` is where they
      are when a rollback or an abort begins. */
  ghost predicate MainInv(d: Deployment, p: Point, first: set<string>, u: Upstream, h: set<string>)
    decreases p
  {
    var olds, both := At(d.olds), At(d.olds + d.news);
    match p
    case Failed(at) => MainInv(d, at, first, u, h)
    case Swap(i, phase) =>
      && i < d.Replacements()
      && At(d.olds[i + 1..]) <= Routing(u) && At(d.olds[i + 1..]) <= h
      && (phase.Health? || phase.Route? ==> At(d.olds[i..]) <= h)
      && (phase.DrainOld? ==> d.olds[i].addr in h && d.olds[i].addr !in Routing(u))
      && (phase.StopOld? || phase.RemoveOld? ==> (d.olds[i].addr in h <==> !d.Drains()))
    case Start => Routing(u) == olds && h == olds && first == both
    case Healthy(_) => !d.strategy.Linear? && Routing(u) == olds && h == olds && first == both
    case Token => d.strategy.BlueGreen? && h == olds && first == both
    case Publish(_) => d.strategy.BlueGreen? && h == olds && first == both
    case Check(_, _) => d.strategy.BlueGreen? && h == olds && first == both
    case Cutover => d.strategy.BlueGreen? && h == olds && first == both
    case Withdraw(_) => h == olds
    case RecordCut =>
      d.strategy.BlueGreen? && h == first == both && Routing(u) == if d.config.watch then At(d.news) else both
    case Window => Watched(d) && Routing(u) == At(d.news) && h == first == both
    case Soak => !Watched(d) && olds <= Routing(u) && olds <= h
    case Shift(_) => d.strategy.Canary? && olds <= h
    case RecordShift(_) => d.strategy.Canary? && olds <= Routing(u) && olds <= h
    case Observe(_) => d.strategy.Canary? && olds <= Routing(u) && olds <= h
    case Promote => !Watched(d) && olds <= h
    case PromoteDrain => !Watched(d) && Routing(u) == At(d.news) && olds <= h
    case PromotePlain => !Watched(d) && if d.Drains() then h == At(d.news) else olds <= h
    case Sweep(why, _, _) =>
      (match why
       case Retire => if Watched(d) || d.Drains() then h == At(d.news) else olds <= h
       case Undo(_) => h == olds
       case GiveBack(_) => h == if d.Drains() then olds else first + olds
       case Discard(targets) => h == if d.Drains() then At(targets) else first + At(targets))
    case MarkRolling(_) => h == first
    case Roll(_) => h == first
    case RollDrain(_) => Routing(u) == olds && h == first + olds
    case Abort(_) => h == first
    case AbortDrain(targets) => Routing(u) == At(targets) && h == first + At(targets)
    case _ => true
  }

  function Flows(h: set<string>, u: Upstream, step: Step): set<string> {
    if !step.ok then h
    else
      match step.op
      case Configure(next) => h + Routing(next)
      case Pause(length) => if length > 0 then Routing(u) else h
      case Watch(_, end, _) => if end.Clean? then Routing(u) else h
      case _ => h
  }

  /** That is what happens to a world's `busy`. */
  lemma BusyFlows(s: World, step: Step)
    ensures Apply(s, step).busy == Flows(s.busy, s.accepted, step)
    ensures Apply(s, step).accepted == Accepted(s.accepted, step)
  {
  }

  // ------------------------------------------------------- what configs route

  lemma RoutesOld(d: Deployment, affinity: string, token: string)
    ensures Routing(OldOnly(d, affinity)) == At(d.olds) && Routing(PreviewUpstream(d, token)) == At(d.olds)
  {
    hide Live;
    LiveOfOldOnly(d, affinity, token);
  }

  lemma RoutesNew(d: Deployment, affinity: string)
    ensures Routing(NewOnly(d, affinity)) == At(d.news) && Routing(BackupUpstream(d, affinity)) == At(d.news)
  {
    hide Live;
    LiveOfNewOnly(d, affinity);
    LiveOfBackup(d, affinity);
  }

  lemma RoutesBoth(d: Deployment, weight: int)
    ensures Routing(SplitUpstream(d, weight)) == At(d.olds + d.news) == At(d.olds) + At(d.news)
  {
    hide Live;
    LiveOfSplit(d, weight);
    AtConcat(d.olds, d.news);
  }

  lemma RoutesTargets(d: Deployment, targets: seq<Container>)
    ensures Routing(TargetUpstream(d, targets)) == At(targets)
  {
    hide Live;
    LiveOfTargets(d, targets);
  }

  lemma RoutesStep(d: Deployment, i: nat)
    requires WellFormed(d) && i < d.Replacements()
    ensures At(d.olds[i + 1..]) <= Routing(StepUpstream(d, i)) && d.olds[i].addr !in Routing(StepUpstream(d, i))
    ensures At(d.olds[i..]) == {d.olds[i].addr} + At(d.olds[i + 1..])
  {
    hide Live, StepUpstream;
    LiveOfStep(d, i);
    SwapSlices(d, i);
    var serving := d.news[..i + 1] + d.olds[i + 1..];
    AtConcat(d.news[..i + 1], d.olds[i + 1..]);
    AtConcat([d.olds[i]], d.olds[i + 1..]);
    assert Addrs([d.olds[i]]) == [d.olds[i].addr];
    assert d.olds[i] in d.olds;
    NotIn(d, serving, d.olds[i]);
  }

  // -------------------------------------------------------------- each effect

  lemma MainSwap(d: Deployment, p: Point, first: set<string>, u: Upstream, h: set<string>, step: Step)
    requires WellFormed(d) && p.Swap? && Allowed(d, p, step) && MainInv(d, p, first, u, h)
    ensures MainInv(d, Next(d, p, step), first, Accepted(u, step), Flows(h, u, step))
  {
    hide Routing, At, StepUpstream, SwapState, GoingBack, AllowedBlueGreen, AllowedBack, NextBlueGreen, NextBack,
      Distinct;
    RoutesStep(d, p.i);
    if p.i + 1 < d.Replacements() {
      RoutesStep(d, p.i + 1);
    }
  }

  lemma MainSettle(d: Deployment, p: Point, first: set<string>, u: Upstream, h: set<string>, step: Step)
    requires (p.Extra? || p.Settle? || p.SettlePlain?) && Allowed(d, p, step)
    ensures MainInv(d, Next(d, p, step), first, Accepted(u, step), Flows(h, u, step))
  {
    hide Routing, At, NewOnly, GoingBack, AllowedBlueGreen, AllowedBack, NextBlueGreen, NextBack;
  }

  lemma MainPreview(d: Deployment, p: Point, first: set<string>, u: Upstream, h: set<string>, step: Step)
    requires p.Token? || p.Publish? || p.Check? || p.Withdraw? || p.CloseUndo?
    requires Allowed(d, p, step) && MainInv(d, p, first, u, h)
    ensures MainInv(d, Next(d, p, step), first, Accepted(u, step), Flows(h, u, step))
  {
    hide Routing, At, OldOnly, PreviewUpstream, FreshState, AllowedLinear, AllowedBack, NextLinear, NextBack, GoingBack;
    RoutesOld(d, d.config.affinity, if p.Publish? then p.token else "");
  }

  lemma MainCut(d: Deployment, p: Point, first: set<string>, u: Upstream, h: set<string>, step: Step)
    requires p.Cutover? || p.RecordCut? || p.Window? || p.Soak?
    requires Allowed(d, p, step) && MainInv(d, p, first, u, h)
    ensures MainInv(d, Next(d, p, step), first, Accepted(u, step), Flows(h, u, step))
  {
    hide Routing, At, NewOnly, SplitUpstream, Errors, FreshState, AllowedLinear, AllowedBack, NextLinear, NextBack;
    hide GoingBack;
    RoutesNew(d, d.config.affinity);
    RoutesBoth(d, d.config.greenWeight);
  }

  lemma MainRoll(d: Deployment, p: Point, first: set<string>, u: Upstream, h: set<string>, step: Step)
    requires d.hasProxy && (p.MarkRolling? || p.Roll? || p.RollDrain? || p.CloseRoll?)
    requires Allowed(d, p, step) && MainInv(d, p, first, u, h)
    ensures MainInv(d, Next(d, p, step), first, Accepted(u, step), Flows(h, u, step))
  {
    hide Routing, At, OldOnly, SettledState, AllowedLinear, AllowedBlueGreen, NextLinear, NextBlueGreen, GoingBack;
    RoutesOld(d, "", "");
  }

  lemma MainAbort(d: Deployment, p: Point, first: set<string>, u: Upstream, h: set<string>, step: Step)
    requires (p.Abort? || p.AbortDrain? || p.CloseAbort?) && Allowed(d, p, step) && MainInv(d, p, first, u, h)
    ensures MainInv(d, Next(d, p, step), first, Accepted(u, step), Flows(h, u, step))
  {
    hide Routing, At, TargetUpstream, SettledState, Victims, AllowedLinear, AllowedBlueGreen, NextLinear;
    hide NextBlueGreen, GoingBack;
    RoutesTargets(d, p.targets);
  }

  lemma MainBegin(d: Deployment, p: Point, first: set<string>, u: Upstream, h: set<string>, step: Step)
    requires (p.Start? || p.Healthy?) && Allowed(d, p, step) && MainInv(d, p, first, u, h)
    ensures MainInv(d, Next(d, p, step), first, Accepted(u, step), Flows(h, u, step))
  {
    hide Routing, At, FreshState, AllowedLinear, AllowedBlueGreen, AllowedBack, NextLinear, NextBlueGreen, NextBack;
    hide GoingBack;
    if p.Start? {
      assert d.olds[0..] == d.olds;
      WithoutFirst(d.olds);
    }
  }

  lemma WithoutFirst(cs: seq<Container>)
    ensures cs != [] ==> At(cs[1..]) <= At(cs)
  {
    if cs != [] {
      AtConcat(cs[..1], cs[1..]);
      assert cs[..1] + cs[1..] == cs;
    }
  }

  lemma MainCanary(d: Deployment, p: Point, first: set<string>, u: Upstream, h: set<string>, step: Step)
    requires OnCanary(p) && Allowed(d, p, step) && MainInv(d, p, first, u, h)
    ensures MainInv(d, Next(d, p, step), first, Accepted(u, step), Flows(h, u, step))
  {
    hide Routing, At, SplitUpstream, WeightState, AllowedLinear, AllowedBlueGreen, AllowedBack, NextLinear;
    hide NextBlueGreen, NextBack, GoingBack;
    if p.Shift? {
      RoutesBoth(d, p.weight);
    }
  }

  lemma MainPromote(d: Deployment, p: Point, first: set<string>, u: Upstream, h: set<string>, step: Step)
    requires p.Promote? || p.PromoteDrain? || p.PromotePlain? || p.Finish?
    requires Allowed(d, p, step) && MainInv(d, p, first, u, h)
    ensures MainInv(d, Next(d, p, step), first, Accepted(u, step), Flows(h, u, step))
  {
    hide Routing, At, BackupUpstream, NewOnly, FinishedState, AllowedLinear, AllowedBlueGreen, AllowedBack, NextLinear;
    hide NextBlueGreen, NextBack, GoingBack;
    RoutesNew(d, DrainAffinity(d));
    RoutesNew(d, "");
  }

  lemma MainSweep(d: Deployment, p: Point, first: set<string>, u: Upstream, h: set<string>, step: Step)
    requires p.Sweep? && Allowed(d, p, step) && MainInv(d, p, first, u, h)
    ensures MainInv(d, Next(d, p, step), first, Accepted(u, step), Flows(h, u, step))
  {
    hide Routing, At, Victims;
  }

  lemma MainStep(d: Deployment, p: Point, first: set<string>, u: Upstream, h: set<string>, step: Step)
    requires WellFormed(d) && Allowed(d, p, step) && MainInv(d, p, first, u, h)
    ensures MainInv(d, Next(d, p, step), first, Accepted(u, step), Flows(h, u, step))
  {
    hide Next, Accepted, Flows, MainInv, Distinct;
    if p.Swap? {
      MainSwap(d, p, first, u, h, step);
    } else if OnLinear(p) {
      MainSettle(d, p, first, u, h, step);
    } else if p.Token? || p.Publish? || p.Check? || p.Withdraw? || p.CloseUndo? {
      MainPreview(d, p, first, u, h, step);
    } else if OnBlueGreen(p) {
      MainCut(d, p, first, u, h, step);
    } else if p.Abort? || p.AbortDrain? || p.CloseAbort? {
      MainAbort(d, p, first, u, h, step);
    } else if OnBack(p) {
      MainRoll(d, p, first, u, h, step);
    } else if p.Sweep? {
      MainSweep(d, p, first, u, h, step);
    } else if OnCanary(p) {
      MainCanary(d, p, first, u, h, step);
    } else if p.Start? || p.Healthy? {
      MainBegin(d, p, first, u, h, step);
    } else {
      MainPromote(d, p, first, u, h, step);
    }
  }

  lemma {:induction false} MainRun(d: Deployment, entry: Point, first: set<string>, start: World, log: Log)
    requires WellFormed(d) && Path(d, entry, log).Some? && MainInv(d, entry, first, start.accepted, start.busy)
    ensures MainInv(d, Path(d, entry, log).value, first, Replay(start, log).accepted, Replay(start, log).busy)
  {
    hide WellFormed, Next, Allowed, MainInv, Flows, Accepted, Apply;
    if log.Then? {
      MainRun(d, entry, first, start, log.before);
      var p, now := Path(d, entry, log.before).value, Replay(start, log.before);
      MainStep(d, p, first, now.accepted, now.busy, log.last);
      BusyFlows(now, log.last);
    }
  }

  // ----------------------------------------------------------------- theorems

  /** The points at which a stop or removal meets a container that may hold a request
      of the main traffic: none if the release drains; otherwise a linear
      replacement, a promotion, and a rollback or an abort if requests could be at
      the container when it began. */
  predicate MeetsMainTraffic(d: Deployment, p: Point, first: set<string>, c: Container) {
    && !d.Drains()
    && (|| p.Swap?
        || (p.Sweep? &&
            match p.why
            case Retire => !Watched(d)
            case Undo(_) => false
            case GiveBack(_) => c.addr in first
            case Discard(_) => c.addr in first))
  }

  lemma OldOrNew(d: Deployment, c: Container)
    requires WellFormed(d) && Mine(d, c)
    ensures c.addr in At(d.olds) <==> c in d.olds
    ensures c.addr in At(d.news) <==> c in d.news
  {
    hide WellFormed;
    if c in d.olds { AddrIn(d.olds, c); } else { NotIn(d, d.olds, c); }
    if c in d.news { AddrIn(d.news, c); } else { NotIn(d, d.news, c); }
  }

  lemma MetHere(d: Deployment, p: Point, first: set<string>, step: Step, c: Container, u: Upstream, h: set<string>)
    requires WellFormed(d) && Allowed(d, p, step) && (step.op.Stop? || step.op.Remove?)
    requires Mine(d, c) && c.id == step.op.id && MainInv(d, p, first, u, h)
    requires p.Sweep? && p.why.Discard? ==> forall t :: t in p.why.targets ==> Mine(d, t)
    ensures c.addr in h <==> MeetsMainTraffic(d, p, first, c)
  {
    hide WellFormed, Victims, Allowed, At, Routing;
    StoppedIs(d, p, step, c);
    OldOrNew(d, c);
    NotBoth(d, c);
    if p.Sweep? && p.why.Discard? {
      assert c.addr !in At(p.why.targets) by { NoTargetAt(d, p.why.targets, c); }
    }
  }

  lemma NotBoth(d: Deployment, c: Container)
    requires WellFormed(d)
    ensures !(c in d.olds && c in d.news)
  {
  }

  lemma NoTargetAt(d: Deployment, targets: seq<Container>, c: Container)
    requires WellFormed(d) && Mine(d, c) && c.id !in Ids(targets) && forall t :: t in targets ==> Mine(d, t)
    ensures c.addr !in At(targets)
  {
    hide WellFormed;
    if c in targets {
      AddrIn(targets, c);
    }
    NotIn(d, targets, c);
  }

  /** In every run of a release that begins with all requests at the old containers, a
      stop meets one exactly if the release does not drain, except when a preview is
      undone and after an error window. */
  lemma ReleaseMeetsMainTraffic(d: Deployment, start: World, log: Log, c: Container)
    requires WellFormed(d) && log.Then? && Path(d, Start, log).Some? && (log.last.op.Stop? || log.last.op.Remove?)
    requires Routing(start.accepted) == At(d.olds) && start.busy == At(d.olds)
    requires Mine(d, c) && c.id == log.last.op.id
    ensures var p := Path(d, Start, log.before).value;
      (c.addr in Replay(start, log.before).busy) <==>
        (!d.Drains() && !(p.Sweep? && (p.why.Undo? || (p.why.Retire? && Watched(d)))))
  {
    hide Path, Replay, WellFormed, Routing, At, Allowed;
    LastStep(d, Start, log);
    var p, now := Path(d, Start, log.before).value, Replay(start, log.before);
    MainRun(d, Start, At(d.olds + d.news), start, log.before);
    NeverDiscards(d, log.before);
    MetHere(d, p, At(d.olds + d.news), log.last, c, now.accepted, now.busy);
    StoppedIs(d, p, log.last, c);
    AtConcat(d.olds, d.news);
    OldOrNew(d, c);
  }

  /** A release by itself never comes to the points of an abort. */
  predicate OnWay(p: Point)
    decreases p
  {
    if p.Failed? then OnWay(p.at)
    else !p.Abort? && !p.AbortDrain? && !p.CloseAbort? && !p.Aborted? && !(p.Sweep? && p.why.Discard?)
  }

  lemma StaysOnWay(d: Deployment, p: Point, step: Step)
    requires OnWay(p) && Allowed(d, p, step)
    ensures OnWay(Next(d, p, step))
  {
    hide Victims, StepUpstream, SwapState, FreshState, CutUpstream, Errors;
  }

  lemma {:induction false} NeverDiscards(d: Deployment, log: Log)
    requires Path(d, Start, log).Some?
    ensures OnWay(Path(d, Start, log).value)
  {
    hide Allowed, Next;
    if log.Then? {
      NeverDiscards(d, log.before);
      StaysOnWay(d, Path(d, Start, log.before).value, log.last);
    }
  }

  /** In every run of an abort, wherever requests are when it begins: exactly if the
      release does not drain and one could be at the container then. */
  lemma AbortMeetsMainTraffic(d: Deployment, targets: seq<Container>, start: World, log: Log, c: Container)
    requires WellFormed(d) && log.Then? && Path(d, Abort(targets), log).Some? && forall t :: t in targets ==> Mine(d, t)
    requires (log.last.op.Stop? || log.last.op.Remove?) && Mine(d, c) && c.id == log.last.op.id
    ensures c in d.news && c.id !in Ids(targets)
    ensures c.addr in Replay(start, log.before).busy <==> !d.Drains() && c.addr in start.busy
  {
    hide Path, Replay, WellFormed, Routing, At, Allowed, Victims, TouchesOnly;
    LastStep(d, Abort(targets), log);
    var p, now := Path(d, Abort(targets), log.before).value, Replay(start, log.before);
    MainRun(d, Abort(targets), start.busy, start, log.before);
    AbortStays(d, targets, log.before);
    NotOver(d, p, log.last);
    StoppedIs(d, p, log.last, c);
    MetHere(d, p, start.busy, log.last, c, now.accepted, now.busy);
  }

  /** In every run of a rollback from a saved state, the same. Such a rollback knows no
      settings and so does not drain: it meets every new container that may hold a
      request when it begins. */
  lemma RollbackMeetsMainTraffic(d: Deployment, ds: DeploymentState, start: World, log: Log, c: Container)
    requires WellFormed(d) && log.Then? && Path(d, MarkRolling(ds), log).Some?
    requires (log.last.op.Stop? || log.last.op.Remove?) && Mine(d, c) && c.id == log.last.op.id
    ensures c in d.news
    ensures c.addr in Replay(start, log.before).busy <==> !d.Drains() && c.addr in start.busy
  {
    hide Path, Replay, WellFormed, Routing, At, Allowed;
    LastStep(d, MarkRolling(ds), log);
    var p, now := Path(d, MarkRolling(ds), log.before).value, Replay(start, log.before);
    MainRun(d, MarkRolling(ds), start.busy, start, log.before);
    RollsBack(d, ds, log.before);
    StoppedIs(d, p, log.last, c);
    MetHere(d, p, start.busy, log.last, c, now.accepted, now.busy);
  }

  predicate OnRollback(p: Point) {
    p.MarkRolling? || p.Roll? || p.RollDrain? || p.CloseRoll? || p.RolledBack? || p.Failed? ||
      (p.Sweep? && p.why.GiveBack?)
  }

  lemma StaysOnRollback(d: Deployment, p: Point, step: Step)
    requires OnRollback(p) && Allowed(d, p, step)
    ensures OnRollback(Next(d, p, step))
  {
    hide Victims, OldOnly, SettledState;
  }

  lemma {:induction false} RollsBack(d: Deployment, ds: DeploymentState, log: Log)
    requires Path(d, MarkRolling(ds), log).Some?
    ensures OnRollback(Path(d, MarkRolling(ds), log).value)
  {
    hide Allowed, Next;
    if log.Then? {
      RollsBack(d, ds, log.before);
      StaysOnRollback(d, Path(d, MarkRolling(ds), log.before).value, log.last);
    }
  }
}
