/** The abort and the rollback as flat lists of effects, written out, and the proof
    that a run of either is its list as far as it gets. */
module BackScripts {
  import opened Rollout
  import opened Machine
  import opened Scripts

  function Settled(d: Deployment, stable: seq<Container>): Op {
    Op.Save(DeploymentState(d.service, Idle, d.strategy.Tag(), 0, Ids(stable), [], "", "", ""))
  }

  /** To the targets, a drain, and the new containers that are not among them go. */
  function AbortScript(d: Deployment, targets: seq<Container>): seq<Op> {
    [Config(d, d.config.affinity, Lines(targets, 0, false, "")), Pause(d.config.drain)] +
    (Removing(Victims(d.news, targets), 0) + [Settled(d, targets)])
  }

  /** The record says so first; then to the old containers, with whatever provider there
      is, a drain, and the new ones go. */
  function RollbackScript(d: Deployment, ds: DeploymentState): seq<Op> {
    [Op.Save(ds.(status := RollingBack)),
     if d.hasProxy then Config(d, "", Lines(d.olds, 0, false, "")) else NoConfig,
     Pause(d.config.drain)] +
    (Removing(d.news, 0) + [Settled(d, d.olds)])
  }

  /** What an abort still has to do at a point. */
  function AbortRest(d: Deployment, targets: seq<Container>, p: Point): seq<Op> {
    var vs := Victims(d.news, targets);
    match p
    case Abort(_) => AbortScript(d, targets)
    case AbortDrain(_) => AbortScript(d, targets)[1..]
    case Sweep(_, j, removing) =>
      (if removing && j < |vs| then Removing(vs, j)[1..] else Removing(vs, j)) + [Settled(d, targets)]
    case CloseAbort(_) => [Settled(d, targets)]
    case _ => []
  }

  predicate OnAbort(p: Point, targets: seq<Container>) {
    p == Abort(targets) || p == AbortDrain(targets) || p == CloseAbort(targets) ||
    (p.Sweep? && p.why == Discard(targets))
  }

  lemma AbortFacts(d: Deployment, targets: seq<Container>, p: Point, step: Step)
    requires OnAbort(p, targets) && Follow(d, p, step).Some?
    ensures p.Abort? ==> step.op == Configure(TargetUpstream(d, targets))
    ensures p.AbortDrain? ==> step.op == Pause(d.config.drain)
    ensures p.CloseAbort? ==> step.op == Op.Save(SettledState(d, targets, ""))
    ensures p.Sweep? ==> p.j < |Victims(d.news, targets)|
    ensures p.Sweep? ==>
      var c := Victims(d.news, targets)[p.j]; step.op == if p.removing then Op.Remove(c.id) else Op.Stop(c.id)
    ensures var q := Follow(d, p, step).value;
      q == Failed(p) || q == if p.Abort? then AbortDrain(targets)
                             else if p.AbortDrain? then SweepFrom(d, Discard(targets), 0)
                             else if p.CloseAbort? then Aborted(targets)
                             else if p.removing then SweepFrom(d, Discard(targets), p.j + 1)
                             else Sweep(Discard(targets), p.j, true)
  {
    hide TargetUpstream, SettledState, SweepFrom, Victims;
  }

  lemma AbortIsScript(d: Deployment, targets: seq<Container>)
    ensures Configure(TargetUpstream(d, targets)) == Config(d, d.config.affinity, Lines(targets, 0, false, ""))
    ensures Op.Save(SettledState(d, targets, "")) == Settled(d, targets)
  {
    PlainLines(targets);
  }

  lemma DiscardFollows(d: Deployment, targets: seq<Container>, j: nat)
    requires j <= |Victims(d.news, targets)|
    ensures var q := SweepFrom(d, Discard(targets), j);
      && OnAbort(q, targets)
      && AbortRest(d, targets, q) == Removing(Victims(d.news, targets), j) + [Settled(d, targets)]
  {
    hide Victims, Settled;
  }

  lemma AbortRests(d: Deployment, targets: seq<Container>)
    ensures AbortRest(d, targets, Abort(targets)) == AbortScript(d, targets)
    ensures AbortRest(d, targets, AbortDrain(targets)) == AbortScript(d, targets)[1..]
    ensures AbortRest(d, targets, CloseAbort(targets)) == [Settled(d, targets)]
    ensures AbortRest(d, targets, Aborted(targets)) == []
  {
    hide AbortScript, Settled, Victims;
  }

  lemma AbortSweepStep(d: Deployment, targets: seq<Container>, j: nat, removing: bool, step: Step)
    requires Follow(d, Sweep(Discard(targets), j, removing), step).Some?
    ensures var p := Sweep(Discard(targets), j, removing);
      var q := Follow(d, p, step).value;
      && AbortRest(d, targets, p) != [] && AbortRest(d, targets, p)[0] == step.op
      && AbortRest(d, targets, p)[1..] == AbortRest(d, targets, q) && OnAbort(q, targets)
  {
    hide Follow, SweepFrom, Victims, Settled, AbortScript;
    AbortFacts(d, targets, Sweep(Discard(targets), j, removing), step);
    SweepsOn(d, Discard(targets), j, removing, step);
    if removing {
      DiscardFollows(d, targets, j + 1);
    }
  }

  lemma SweepsOn(d: Deployment, why: Why, j: nat, removing: bool, step: Step)
    requires Follow(d, Sweep(why, j, removing), step).Some?
    ensures Follow(d, Sweep(why, j, removing), step).value ==
      if removing then SweepFrom(d, why, j + 1) else Sweep(why, j, true)
  {
    hide SweepFrom, Victims;
  }

  lemma AbortStep(d: Deployment, targets: seq<Container>, p: Point, step: Step)
    requires OnAbort(p, targets) && Follow(d, p, step).Some?
    ensures AbortRest(d, targets, p) != [] && AbortRest(d, targets, p)[0] == step.op
    ensures var q := Follow(d, p, step).value;
      q == Failed(p) || (AbortRest(d, targets, p)[1..] == AbortRest(d, targets, q) &&
        (OnAbort(q, targets) || q == Aborted(targets)))
  {
    hide Follow, TargetUpstream, SettledState, SweepFrom, Victims, Config, Settled, AbortRest;
    if p.Sweep? {
      AbortSweepStep(d, targets, p.j, p.removing, step);
    } else {
      AbortFacts(d, targets, p, step);
      AbortIsScript(d, targets);
      DiscardFollows(d, targets, 0);
      AbortRests(d, targets);
      hide Removing;
    }
  }

  lemma {:induction false} AbortTrack(d: Deployment, targets: seq<Container>, log: Log)
    requires Path(d, Abort(targets), log).Some?
    ensures var p := Path(d, Abort(targets), log).value;
      if p.Failed? then Ops(log) <= AbortScript(d, targets)
      else
        && (OnAbort(p, targets) || p == Aborted(targets))
        && Ops(log) + AbortRest(d, targets, p) == AbortScript(d, targets)
  {
    hide Follow, AbortScript, OnAbort;
    if log.Then? {
      AbortTrack(d, targets, log.before);
      var p := Path(d, Abort(targets), log.before).value;
      assert !p.Failed? && !p.Aborted? by { EndedStays(d, p, log.last); }
      AbortStep(d, targets, p, log.last);
      OneDone(Ops(log.before), log.last.op, AbortRest(d, targets, p), AbortScript(d, targets));
    } else {
      assert OnAbort(Abort(targets), targets) by { AbortBegins(targets); }
      assert Ops(log) + AbortRest(d, targets, Abort(targets)) == AbortRest(d, targets, Abort(targets));
    }
  }

  lemma AbortBegins(targets: seq<Container>)
    ensures OnAbort(Abort(targets), targets)
  {
  }

  /** Whatever fails, an abort does what its list says, in that order and nothing else,
      and it gets to its end exactly by doing all of it. */
  lemma AbortFollowsScript(d: Deployment, targets: seq<Container>, log: Log)
    requires Path(d, Abort(targets), log).Some?
    ensures Ops(log) <= AbortScript(d, targets)
    ensures Path(d, Abort(targets), log) == Some(Aborted(targets)) ==> Ops(log) == AbortScript(d, targets)
  {
    hide Path, AbortScript, Ops;
    AbortTrack(d, targets, log);
    if Path(d, Abort(targets), log) == Some(Aborted(targets)) {
      assert Ops(log) + [] == Ops(log);
    }
  }

  // ------------------------------------------------------------------ rollback

  /** What a rollback still has to do at a point. */
  function RollbackRest(d: Deployment, ds: DeploymentState, p: Point): seq<Op> {
    match p
    case MarkRolling(_) => RollbackScript(d, ds)
    case Roll(_) => RollbackScript(d, ds)[1..]
    case RollDrain(_) => RollbackScript(d, ds)[2..]
    case Sweep(_, j, removing) =>
      (if removing && j < |d.news| then Removing(d.news, j)[1..] else Removing(d.news, j)) + [Settled(d, d.olds)]
    case CloseRoll(_) => [Settled(d, d.olds)]
    case _ => []
  }

  predicate OnRollback(p: Point, ds: DeploymentState) {
    p == MarkRolling(ds) || p == Roll("") || p == RollDrain("") || p == CloseRoll("") ||
    (p.Sweep? && p.why == GiveBack(""))
  }

  lemma RollbackFacts(d: Deployment, ds: DeploymentState, p: Point, step: Step)
    requires OnRollback(p, ds) && Follow(d, p, step).Some?
    ensures p.MarkRolling? ==> step.op == Op.Save(ds.(status := RollingBack))
    ensures p.Roll? ==> step.op == if d.hasProxy then Configure(OldOnly(d, "")) else NoConfig
    ensures p.RollDrain? ==> step.op == Pause(d.config.drain)
    ensures p.CloseRoll? ==> step.op == Op.Save(SettledState(d, d.olds, ""))
    ensures p.Sweep? ==> p.j < |d.news|
    ensures p.Sweep? ==> step.op == if p.removing then Op.Remove(d.news[p.j].id) else Op.Stop(d.news[p.j].id)
    ensures var q := Follow(d, p, step).value;
      q == Failed(p) || q == if p.MarkRolling? then Roll("") else if p.Roll? then RollDrain("")
                             else if p.RollDrain? then SweepFrom(d, GiveBack(""), 0)
                             else if p.CloseRoll? then RolledBack("")
                             else if p.removing then SweepFrom(d, GiveBack(""), p.j + 1)
                             else Sweep(GiveBack(""), p.j, true)
  {
    hide OldOnly, SettledState, SweepFrom;
  }

  lemma GiveBackFollows(d: Deployment, ds: DeploymentState, j: nat)
    requires j <= |d.news|
    ensures var q := SweepFrom(d, GiveBack(""), j);
      OnRollback(q, ds) && RollbackRest(d, ds, q) == Removing(d.news, j) + [Settled(d, d.olds)]
  {
    hide Settled;
  }

  lemma RollbackRests(d: Deployment, ds: DeploymentState)
    ensures RollbackRest(d, ds, MarkRolling(ds)) == RollbackScript(d, ds)
    ensures RollbackRest(d, ds, Roll("")) == RollbackScript(d, ds)[1..]
    ensures RollbackRest(d, ds, RollDrain("")) == RollbackScript(d, ds)[2..]
    ensures RollbackRest(d, ds, CloseRoll("")) == [Settled(d, d.olds)]
    ensures RollbackRest(d, ds, RolledBack("")) == []
  {
    hide RollbackScript, Settled;
  }

  lemma RollbackSweepStep(d: Deployment, ds: DeploymentState, j: nat, removing: bool, step: Step)
    requires Follow(d, Sweep(GiveBack(""), j, removing), step).Some?
    ensures var p := Sweep(GiveBack(""), j, removing);
      var q := Follow(d, p, step).value;
      && RollbackRest(d, ds, p) != [] && RollbackRest(d, ds, p)[0] == step.op
      && RollbackRest(d, ds, p)[1..] == RollbackRest(d, ds, q) && OnRollback(q, ds)
  {
    hide Follow, SweepFrom, Settled, RollbackScript;
    RollbackFacts(d, ds, Sweep(GiveBack(""), j, removing), step);
    SweepsOn(d, GiveBack(""), j, removing, step);
    if removing {
      GiveBackFollows(d, ds, j + 1);
    }
  }

  lemma RollbackStarts(d: Deployment, ds: DeploymentState, p: Point, step: Step)
    requires (p == MarkRolling(ds) || p == Roll("")) && Follow(d, p, step).Some?
    ensures RollbackRest(d, ds, p) != [] && RollbackRest(d, ds, p)[0] == step.op
    ensures var q := Follow(d, p, step).value;
      q == Failed(p) || (RollbackRest(d, ds, p)[1..] == RollbackRest(d, ds, q) && OnRollback(q, ds))
  {
    hide Follow, OldOnly, SettledState, SweepFrom, Config, Settled, RollbackRest, Removing, Lines;
    RollbackFacts(d, ds, p, step);
    OldServersAre(d);
    RollbackRests(d, ds);
  }

  lemma RollbackDrains(d: Deployment, ds: DeploymentState, step: Step)
    requires Follow(d, RollDrain(""), step).Some?
    ensures var p := RollDrain("");
      var q := Follow(d, p, step).value;
      && RollbackRest(d, ds, p) != [] && RollbackRest(d, ds, p)[0] == step.op
      && (q == Failed(p) || (RollbackRest(d, ds, p)[1..] == RollbackRest(d, ds, q) && OnRollback(q, ds)))
  {
    hide Follow, SweepFrom, Config, Settled, RollbackRest, Removing;
    assert OnRollback(RollDrain(""), ds);
    RollbackFacts(d, ds, RollDrain(""), step);
    GiveBackFollows(d, ds, 0);
    RollbackRests(d, ds);
    hide OnRollback;
    assert RollbackScript(d, ds)[3..] == Removing(d.news, 0) + [Settled(d, d.olds)];
  }

  lemma RollbackCloses(d: Deployment, ds: DeploymentState, step: Step)
    requires Follow(d, CloseRoll(""), step).Some?
    ensures var p := CloseRoll("");
      var q := Follow(d, p, step).value;
      && RollbackRest(d, ds, p) != [] && RollbackRest(d, ds, p)[0] == step.op
      && (q == Failed(p) || (RollbackRest(d, ds, p)[1..] == RollbackRest(d, ds, q) && q == RolledBack("")))
  {
    hide Follow, SettledState, Settled, RollbackRest, Removing;
    RollbackFacts(d, ds, CloseRoll(""), step);
    AbortIsScript(d, d.olds);
    RollbackRests(d, ds);
  }

  lemma RollbackStep(d: Deployment, ds: DeploymentState, p: Point, step: Step)
    requires OnRollback(p, ds) && Follow(d, p, step).Some?
    ensures RollbackRest(d, ds, p) != [] && RollbackRest(d, ds, p)[0] == step.op
    ensures var q := Follow(d, p, step).value;
      q == Failed(p) || (RollbackRest(d, ds, p)[1..] == RollbackRest(d, ds, q) &&
        (OnRollback(q, ds) || q == RolledBack("")))
  {
    hide Follow, RollbackRest;
    if p.Sweep? {
      RollbackSweepStep(d, ds, p.j, p.removing, step);
    } else if p.MarkRolling? || p.Roll? {
      RollbackStarts(d, ds, p, step);
    } else if p.RollDrain? {
      RollbackDrains(d, ds, step);
    } else {
      RollbackCloses(d, ds, step);
    }
  }

  lemma OldServersAre(d: Deployment)
    ensures Configure(OldOnly(d, "")) == Config(d, "", Lines(d.olds, 0, false, ""))
  {
    PlainLines(d.olds);
  }

  lemma {:induction false} RollbackTrack(d: Deployment, ds: DeploymentState, log: Log)
    requires Path(d, MarkRolling(ds), log).Some?
    ensures var p := Path(d, MarkRolling(ds), log).value;
      if p.Failed? then Ops(log) <= RollbackScript(d, ds)
      else (OnRollback(p, ds) || p == RolledBack("")) && Ops(log) + RollbackRest(d, ds, p) == RollbackScript(d, ds)
  {
    hide Follow, RollbackScript, OnRollback;
    if log.Then? {
      RollbackTrack(d, ds, log.before);
      var p := Path(d, MarkRolling(ds), log.before).value;
      assert !p.Failed? && !p.RolledBack? by { EndedStays(d, p, log.last); }
      RollbackStep(d, ds, p, log.last);
      OneDone(Ops(log.before), log.last.op, RollbackRest(d, ds, p), RollbackScript(d, ds));
    } else {
      assert OnRollback(MarkRolling(ds), ds) by { RollbackBegins(ds); }
      assert Ops(log) + RollbackRest(d, ds, MarkRolling(ds)) == RollbackRest(d, ds, MarkRolling(ds));
    }
  }

  lemma RollbackBegins(ds: DeploymentState)
    ensures OnRollback(MarkRolling(ds), ds)
  {
  }

  /** The same of a rollback. */
  lemma RollbackFollowsScript(d: Deployment, ds: DeploymentState, log: Log)
    requires Path(d, MarkRolling(ds), log).Some?
    ensures Ops(log) <= RollbackScript(d, ds)
    ensures Path(d, MarkRolling(ds), log) == Some(RolledBack("")) ==> Ops(log) == RollbackScript(d, ds)
  {
    hide Path, RollbackScript, Ops;
    RollbackTrack(d, ds, log);
    if Path(d, MarkRolling(ds), log) == Some(RolledBack("")) {
      assert Ops(log) + [] == Ops(log);
    }
  }
}
