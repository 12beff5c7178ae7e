/** Each strategy as a flat list of effects, written out, and the proof that a run
    is that list as far as it gets. */
module Scripts {
  import opened Rollout
  import opened Machine

  // --------------------------------------------------------------- what is written

  /** One server for each container. */
  function Lines(cs: seq<Container>, weight: int, backup: bool, group: string): (ss: seq<Server>)
    ensures |ss| == |cs|
  {
    seq(|cs|, i requires 0 <= i < |cs| => Server(cs[i].addr, weight, false, backup, group))
  }

  /** A config without a preview. */
  function Config(d: Deployment, affinity: string, servers: seq<Server>): Op {
    Configure(ApplySettings(d.config, Upstream(d.service, d.UpstreamName(), servers, affinity, 0, "", [], "")))
  }

  function NewAlone(d: Deployment, affinity: string): Op {
    Config(d, affinity, Lines(d.news, 0, false, ""))
  }

  /** A release that is open on record, with the weight the new containers have. */
  function Opened(d: Deployment, weight: int): Op {
    Op.Save(DeploymentState(d.service, InProgress, d.strategy.Tag(), weight, Ids(d.olds),
                            if d.strategy.Linear? then [] else Ids(d.news), "", "", ""))
  }

  function Closed(d: Deployment): Op {
    Op.Save(DeploymentState(d.service, Idle, d.strategy.Tag(), if d.strategy.Linear? then 0 else 100, Ids(d.news), [],
                            "", "", ""))
  }

  /** Waits for the new containers from `j` on. */
  function Waiting(d: Deployment, j: nat): seq<Op>
    decreases |d.news| - j
  {
    if j < |d.news| then [Op.WaitHealthy(d.news[j].id)] + Waiting(d, j + 1) else []
  }

  /** Stops and removes the containers from `j` on. */
  function Removing(cs: seq<Container>, j: nat): seq<Op>
    decreases |cs| - j
  {
    if j < |cs| then [Op.Stop(cs[j].id), Op.Remove(cs[j].id)] + Removing(cs, j + 1) else []
  }

  // -------------------------------------------------------------------- linear

  /** Old container `i` gives way to new container `i`, and the record follows. */
  function Replacement(d: Deployment, i: nat): (ops: seq<Op>)
    requires i < d.Replacements()
    ensures |ops| == 6
  {
    [Op.WaitHealthy(d.news[i].id),
     Config(d, d.config.affinity, Lines(d.news[..i + 1], 0, false, "") + [Server(d.olds[i].addr, 0, true, false, "")]
                                  + Lines(d.olds[i + 1..], 0, false, "")),
     Pause(d.config.drain),
     Op.Stop(d.olds[i].id),
     Op.Remove(d.olds[i].id),
     Op.Save(DeploymentState(d.service, InProgress, "linear", 0,
                             Ids(d.news[..i + 1]) + (if i + 1 < d.Replacements() then Ids(d.olds[i + 1..]) else []),
                             [], "", "", ""))]
  }

  function Replacing(d: Deployment, i: nat): seq<Op>
    decreases d.Replacements() - i
  {
    if i < d.Replacements() then Replacement(d, i) + Replacing(d, i + 1) else []
  }

  function Settling(d: Deployment): seq<Op> {
    [NewAlone(d, d.config.affinity), NewAlone(d, ""), Closed(d)]
  }

  function LinearScript(d: Deployment): seq<Op> {
    [Opened(d, 0)] + (Replacing(d, 0) + (Waiting(d, |d.olds|) + Settling(d)))
  }

  /** What a linear run still has to do at a point. */
  function LinearRest(d: Deployment, p: Point): seq<Op> {
    match p
    case Start => LinearScript(d)
    case Swap(i, phase) =>
      var after := Replacing(d, i + 1) + (Waiting(d, |d.olds|) + Settling(d));
      if i >= d.Replacements() then after
      else
        (match phase
         case Health => Replacement(d, i)
         case Route => Replacement(d, i)[1..]
         case DrainOld => Replacement(d, i)[2..]
         case StopOld => Replacement(d, i)[3..]
         case RemoveOld => Replacement(d, i)[4..]
         case Record => Replacement(d, i)[5..]) + after
    case Extra(j) => Waiting(d, j) + Settling(d)
    case Settle => Settling(d)
    case SettlePlain => Settling(d)[1..]
    case Finish => [Closed(d)]
    case _ => []
  }

  lemma PlainLines(cs: seq<Container>)
    ensures Plain(cs) == Lines(cs, 0, false, "")
  {
  }

  lemma StepIsScript(d: Deployment, i: nat)
    requires d.strategy.Linear? && i < d.Replacements()
    ensures Configure(StepUpstream(d, i)) == Replacement(d, i)[1]
    ensures Op.Save(SwapState(d, i + 1)) == Replacement(d, i)[5]
  {
    PlainLines(d.news[..i + 1]);
    PlainLines(d.olds[i + 1..]);
  }

  lemma AloneIsScript(d: Deployment, affinity: string)
    ensures Configure(NewOnly(d, affinity)) == NewAlone(d, affinity)
    ensures Op.Save(FreshState(d)) == Opened(d, 0) && Op.Save(FinishedState(d)) == Closed(d)
  {
    PlainLines(d.news);
  }

  lemma SwapFollows(d: Deployment, i: nat)
    ensures LinearRest(d, SwapFrom(d, i)) == Replacing(d, i) + (Waiting(d, |d.olds|) + Settling(d))
  {
    hide Settling, Replacement;
    if i < d.Replacements() {
      assert Replacement(d, i) + Replacing(d, i + 1) + (Waiting(d, |d.olds|) + Settling(d)) ==
        Replacement(d, i) + (Replacing(d, i + 1) + (Waiting(d, |d.olds|) + Settling(d)));
    }
  }

  /** Every step of a linear run is the next effect of the list. */
  lemma LinearStep(d: Deployment, p: Point, step: Step)
    requires d.strategy.Linear? && (p.Start? || OnLinear(p) || p.Finish?) && Follow(d, p, step).Some?
    ensures LinearRest(d, p) != [] && LinearRest(d, p)[0] == step.op
    ensures var q := Follow(d, p, step).value;
      q == Failed(p) || (LinearRest(d, p)[1..] == LinearRest(d, q) && (OnLinear(q) || q.Finish? || q.Done?))
  {
    hide Follow, LinearRest;
    LinearStays(d, p, step);
    if p.Swap? {
      SwapStep(d, p.i, p.phase, step);
    } else if p.Extra? {
      ExtraStep(d, p.j, step);
    } else {
      OtherStep(d, p, step);
    }
  }

  lemma LinearStays(d: Deployment, p: Point, step: Step)
    requires d.strategy.Linear? && (p.Start? || OnLinear(p) || p.Finish?) && Follow(d, p, step).Some?
    ensures var q := Follow(d, p, step).value; q == Failed(p) || OnLinear(q) || q.Finish? || q.Done?
  {
    hide StepUpstream, SwapState, NewOnly, FreshState, FinishedState;
  }

  lemma OtherStep(d: Deployment, p: Point, step: Step)
    requires d.strategy.Linear? && (p.Start? || p.Settle? || p.SettlePlain? || p.Finish?) && Follow(d, p, step).Some?
    ensures LinearRest(d, p) != [] && LinearRest(d, p)[0] == step.op
    ensures var q := Follow(d, p, step).value; q == Failed(p) || LinearRest(d, p)[1..] == LinearRest(d, q)
  {
    hide NewOnly, FreshState, FinishedState, Replacing, Waiting, NewAlone, Closed, Opened, SwapFrom, LinearRest;
    AloneIsScript(d, d.config.affinity);
    AloneIsScript(d, "");
    OtherRest(d);
    SwapFollows(d, 0);
  }

  lemma OtherRest(d: Deployment)
    ensures LinearRest(d, Start) == [Opened(d, 0)] + (Replacing(d, 0) + (Waiting(d, |d.olds|) + Settling(d)))
    ensures LinearRest(d, Settle) == Settling(d) && LinearRest(d, SettlePlain) == Settling(d)[1..]
    ensures LinearRest(d, Finish) == [Closed(d)] && LinearRest(d, Done) == []
  {
    hide Replacing, Waiting, NewAlone, Closed, Opened;
  }

  lemma SwapStep(d: Deployment, i: nat, phase: Phase, step: Step)
    requires d.strategy.Linear? && Follow(d, Swap(i, phase), step).Some?
    ensures var p := Swap(i, phase);
      && LinearRest(d, p) != [] && LinearRest(d, p)[0] == step.op
      && (Follow(d, p, step).value == Failed(p) || LinearRest(d, p)[1..] == LinearRest(d, Follow(d, p, step).value))
  {
    hide StepUpstream, SwapState, NewOnly, FreshState, FinishedState, Replacing, Waiting, Settling, Replacement;
    StepIsScript(d, i);
    ReplacementIs(d, i);
    if phase.Record? {
      SwapFollows(d, i + 1);
    }
  }

  lemma ReplacementIs(d: Deployment, i: nat)
    requires i < d.Replacements()
    ensures var ops := Replacement(d, i);
      && ops[0] == Op.WaitHealthy(d.news[i].id) && ops[2] == Pause(d.config.drain)
      && ops[3] == Op.Stop(d.olds[i].id) && ops[4] == Op.Remove(d.olds[i].id)
  {
  }

  lemma ExtraStep(d: Deployment, j: nat, step: Step)
    requires d.strategy.Linear? && Follow(d, Extra(j), step).Some?
    ensures var p := Extra(j);
      && LinearRest(d, p) != [] && LinearRest(d, p)[0] == step.op
      && (Follow(d, p, step).value == Failed(p) || LinearRest(d, p)[1..] == LinearRest(d, Follow(d, p, step).value))
  {
    hide NewOnly, FreshState, FinishedState, Settling;
    assert Waiting(d, j) == [Op.WaitHealthy(d.news[j].id)] + Waiting(d, j + 1);
  }

  /** One effect done, and the list goes on behind it. */
  lemma OneDone(done: seq<Op>, op: Op, rest: seq<Op>, script: seq<Op>)
    requires rest != [] && rest[0] == op && done + rest == script
    ensures done + [op] <= script && done + [op] + rest[1..] == script
  {
    assert done + rest == done + [op] + rest[1..];
  }

  lemma {:induction false} LinearTrack(d: Deployment, log: Log)
    requires d.strategy.Linear? && Path(d, Start, log).Some?
    ensures var p := Path(d, Start, log).value;
      if p.Failed? then Ops(log) <= LinearScript(d)
      else (p.Start? || OnLinear(p) || p.Finish? || p.Done?) && Ops(log) + LinearRest(d, p) == LinearScript(d)
  {
    hide Follow, LinearScript, OnLinear, LinearRest;
    if log.Then? {
      LinearTrack(d, log.before);
      var p := Path(d, Start, log.before).value;
      assert !p.Failed? && !p.Done? by { EndedStays(d, p, log.last); }
      LinearStep(d, p, log.last);
      OneDone(Ops(log.before), log.last.op, LinearRest(d, p), LinearScript(d));
    } else {
      assert LinearRest(d, Start) == LinearScript(d) by { LinearBegins(d); }
      assert Ops(log) + LinearRest(d, Start) == LinearRest(d, Start);
    }
  }

  lemma LinearBegins(d: Deployment)
    ensures LinearRest(d, Start) == LinearScript(d)
  {
  }

  lemma EndedStays(d: Deployment, p: Point, step: Step)
    requires Follow(d, p, step).Some?
    ensures !Ended(p)
  {
  }

  /** Whatever fails, a linear run does what its list says, in that order and nothing
      else, and it gets to its end exactly by doing all of it. */
  lemma LinearFollowsScript(d: Deployment, log: Log)
    requires d.strategy.Linear? && Path(d, Start, log).Some?
    ensures Ops(log) <= LinearScript(d)
    ensures Path(d, Start, log) == Some(Done) ==> Ops(log) == LinearScript(d)
  {
    hide Path, LinearScript, Ops;
    LinearTrack(d, log);
    var p := Path(d, Start, log).value;
    if p.Done? {
      assert Ops(log) + [] == Ops(log);
    }
  }

  // -------------------------------------------------------------------- canary

  /** Weight after weight below 100: the split, the record of it, and a wait. */
  function Shifting(d: Deployment, weight: int): seq<Op>
    decreases 100 - weight
  {
    if weight < 100 && d.config.canaryStep > 0 then
      [Config(d, d.config.affinity, Lines(d.olds, 100 - weight, false, "stable") +
                                    Lines(d.news, weight, false, "canary")),
       Opened(d, weight),
       Pause(d.config.interval)] + Shifting(d, weight + d.config.canaryStep)
    else []
  }

  /** Everyone to the new containers, with the old ones behind them for a drain. */
  function Promoting(d: Deployment, affinity: string): (ops: seq<Op>)
    ensures |ops| == 3
  {
    [Config(d, affinity, Lines(d.news, 0, false, "") + Lines(d.olds, 0, true, "")),
     Pause(d.config.drain),
     NewAlone(d, "")]
  }

  function Retiring(d: Deployment, j: nat): seq<Op> {
    Removing(d.olds, j) + [Closed(d)]
  }

  function CanaryScript(d: Deployment): seq<Op> {
    [Opened(d, 0)] +
    (Waiting(d, 0) + (Shifting(d, d.config.canaryStart) + (Promoting(d, d.config.affinity) + Retiring(d, 0))))
  }

  /** What a canary run still has to do at a point. */
  function CanaryRest(d: Deployment, p: Point): seq<Op> {
    var end := Promoting(d, d.config.affinity) + Retiring(d, 0);
    match p
    case Start => CanaryScript(d)
    case Healthy(j) => Waiting(d, j) + (Shifting(d, d.config.canaryStart) + end)
    case Shift(w) => Shifting(d, w) + end
    case RecordShift(w) => (Shifting(d, w) + end)[if w < 100 && d.config.canaryStep > 0 then 1 else 0..]
    case Observe(w) => (Shifting(d, w) + end)[if w < 100 && d.config.canaryStep > 0 then 2 else 0..]
    case Promote => end
    case PromoteDrain => end[1..]
    case PromotePlain => end[2..]
    case Sweep(_, j, removing) => if removing && j < |d.olds| then Retiring(d, j)[1..] else Retiring(d, j)
    case Finish => [Closed(d)]
    case _ => []
  }

  predicate CanaryPoint(p: Point) {
    p.Start? || p.Healthy? || OnCanary(p) || p.Promote? || p.PromoteDrain? || p.PromotePlain? || p.Finish? ||
    (p.Sweep? && p.why.Retire?)
  }

  lemma SplitIsScript(d: Deployment, weight: int)
    requires !d.strategy.Linear?
    ensures Configure(SplitUpstream(d, weight)) ==
      Config(d, d.config.affinity, Lines(d.olds, 100 - weight, false, "stable") +
        Lines(d.news, weight, false, "canary"))
    ensures Op.Save(WeightState(d, weight)) == Opened(d, weight)
  {
    assert Weighted(d.olds, 100 - weight, "stable") == Lines(d.olds, 100 - weight, false, "stable");
    assert Weighted(d.news, weight, "canary") == Lines(d.news, weight, false, "canary");
  }

  lemma PromotionIsScript(d: Deployment, affinity: string)
    ensures Configure(BackupUpstream(d, affinity)) == Promoting(d, affinity)[0]
    ensures Pause(d.config.drain) == Promoting(d, affinity)[1]
    ensures Configure(NewOnly(d, "")) == Promoting(d, affinity)[2]
  {
    PlainLines(d.news);
    assert Backups(d.olds) == Lines(d.olds, 0, true, "");
  }

  lemma HealthyFollows(d: Deployment, j: nat)
    requires d.strategy.Canary?
    ensures CanaryRest(d, HealthyFrom(d, j)) == Waiting(d, j) + CanaryRest(d, ShiftFrom(d, d.config.canaryStart))
  {
    hide Promoting, Retiring, CanaryScript;
    ShiftFollows(d, d.config.canaryStart);
    assert j >= |d.news| ==> Waiting(d, j) == [];
  }

  lemma ShiftFollows(d: Deployment, weight: int)
    ensures CanaryRest(d, ShiftFrom(d, weight)) == Shifting(d, weight) + CanaryRest(d, Promote)
  {
    hide Promoting, Retiring, CanaryScript;
    assert weight >= 100 ==> Shifting(d, weight) == [];
  }

  lemma SweepFollows(d: Deployment, j: nat)
    requires j <= |d.olds|
    ensures CanaryRest(d, SweepFrom(d, Retire, j)) == Retiring(d, j)
  {
  }

  lemma ShiftFacts(d: Deployment, p: Point, step: Step)
    requires d.strategy.Canary? && OnCanary(p) && Follow(d, p, step).Some?
    ensures step.op == if p.Shift? then Configure(SplitUpstream(d, p.weight))
                       else if p.RecordShift? then Op.Save(WeightState(d, p.weight)) else Pause(d.config.interval)
    ensures var q := Follow(d, p, step).value;
      q == Failed(p) || q == if p.Shift? then RecordShift(p.weight) else if p.RecordShift? then Observe(p.weight)
                             else ShiftFrom(d, p.weight + d.config.canaryStep)
  {
    hide SplitUpstream, WeightState, ShiftFrom;
  }

  lemma ShiftRests(d: Deployment, weight: int)
    requires d.config.canaryStep > 0 && weight < 100
    ensures var rest := Shifting(d, weight) + CanaryRest(d, Promote);
      && CanaryRest(d, Shift(weight)) == rest && CanaryRest(d, RecordShift(weight)) == rest[1..]
      && CanaryRest(d, Observe(weight)) == rest[2..]
  {
    hide Shifting, Promoting, Retiring, CanaryScript;
  }

  lemma ShiftStep(d: Deployment, p: Point, step: Step)
    requires d.strategy.Canary? && d.config.canaryStep > 0 && OnCanary(p) && Follow(d, p, step).Some? && p.weight < 100
    ensures CanaryRest(d, p) != [] && CanaryRest(d, p)[0] == step.op
    ensures var q := Follow(d, p, step).value; q == Failed(p) || CanaryRest(d, p)[1..] == CanaryRest(d, q)
  {
    hide Follow, SplitUpstream, WeightState, Opened, Config, CanaryRest, ShiftFrom;
    ShiftFacts(d, p, step);
    SplitIsScript(d, p.weight);
    ShiftRests(d, p.weight);
    ShiftFollows(d, p.weight + d.config.canaryStep);
  }

  lemma RetireStep(d: Deployment, j: nat, removing: bool, step: Step)
    requires Follow(d, Sweep(Retire, j, removing), step).Some?
    ensures var p := Sweep(Retire, j, removing);
      && CanaryRest(d, p) != [] && CanaryRest(d, p)[0] == step.op
      && CanaryRest(d, p)[1..] == CanaryRest(d, Follow(d, p, step).value)
  {
    hide Closed, Promoting, Shifting;
    if removing {
      SweepFollows(d, j + 1);
    }
  }

  lemma PromoteStep(d: Deployment, p: Point, step: Step)
    requires d.strategy.Canary? && (p.Promote? || p.PromoteDrain? || p.PromotePlain? || p.Finish?)
    requires Follow(d, p, step).Some?
    ensures CanaryRest(d, p) != [] && CanaryRest(d, p)[0] == step.op
    ensures var q := Follow(d, p, step).value; q == Failed(p) || CanaryRest(d, p)[1..] == CanaryRest(d, q)
  {
    hide Closed, Promoting, Shifting, Retiring, BackupUpstream, NewOnly, FinishedState, SweepFrom, CanaryRest;
    hide Follow;
    PromoteFacts(d, p, step);
    PromotionIsScript(d, d.config.affinity);
    AloneIsScript(d, "");
    SweepFollows(d, 0);
    PromoteRests(d);
  }

  lemma PromoteFacts(d: Deployment, p: Point, step: Step)
    requires !d.strategy.Linear? && (p.Promote? || p.PromoteDrain? || p.PromotePlain? || p.Finish?)
    requires Follow(d, p, step).Some?
    ensures p.Promote? ==> step.op == Configure(BackupUpstream(d, DrainAffinity(d)))
    ensures p.PromoteDrain? ==> step.op == Pause(d.config.drain)
    ensures p.PromotePlain? ==> step.op == Configure(NewOnly(d, ""))
    ensures p.Finish? ==> step.op == Op.Save(FinishedState(d))
    ensures var q := Follow(d, p, step).value;
      q == Failed(p) || q == if p.Promote? then PromoteDrain else if p.PromoteDrain? then PromotePlain
                             else if p.PromotePlain? then SweepFrom(d, Retire, 0) else Done
  {
    hide BackupUpstream, NewOnly, FinishedState, SweepFrom, DrainAffinity;
  }

  lemma PromoteRests(d: Deployment)
    ensures CanaryRest(d, Promote) == Promoting(d, d.config.affinity) + Retiring(d, 0)
    ensures CanaryRest(d, PromoteDrain) == CanaryRest(d, Promote)[1..]
    ensures CanaryRest(d, PromotePlain) == CanaryRest(d, Promote)[2..]
    ensures CanaryRest(d, Finish) == [Closed(d)] && CanaryRest(d, Done) == []
  {
    hide Closed, Promoting, Retiring, CanaryScript;
  }

  lemma RiseRests(d: Deployment, p: Point)
    requires p.Start? || p.Healthy?
    ensures CanaryRest(d, p) ==
      if p.Start? then [Opened(d, 0)] + (Waiting(d, 0) + (Shifting(d, d.config.canaryStart) + CanaryRest(d, Promote)))
      else Waiting(d, p.j) + (Shifting(d, d.config.canaryStart) + CanaryRest(d, Promote))
  {
    hide Opened, Promoting, Shifting, Retiring, Waiting;
  }

  lemma RiseFacts(d: Deployment, p: Point, step: Step)
    requires !d.strategy.Linear? && (p.Start? || p.Healthy?) && Follow(d, p, step).Some?
    ensures if p.Start? then step.op == Op.Save(FreshState(d))
            else p.j < |d.news| && step.op == Op.WaitHealthy(d.news[p.j].id)
    ensures var q := Follow(d, p, step).value;
      q == Failed(p) || q == HealthyFrom(d, if p.Start? then 0 else p.j + 1)
  {
    hide FreshState, HealthyFrom;
  }

  lemma RiseStep(d: Deployment, p: Point, step: Step)
    requires d.strategy.Canary? && (p.Start? || p.Healthy?) && Follow(d, p, step).Some?
    ensures CanaryRest(d, p) != [] && CanaryRest(d, p)[0] == step.op
    ensures var q := Follow(d, p, step).value; q == Failed(p) || CanaryRest(d, p)[1..] == CanaryRest(d, q)
  {
    hide Closed, Opened, Promoting, Shifting, Retiring, FreshState, FinishedState, HealthyFrom, ShiftFrom, CanaryRest;
    hide Follow;
    RiseFacts(d, p, step);
    AloneIsScript(d, "");
    ShiftFollows(d, d.config.canaryStart);
    RiseRests(d, p);
    if p.Start? {
      HealthyFollows(d, 0);
    } else {
      HealthyFollows(d, p.j + 1);
      assert Waiting(d, p.j) == [Op.WaitHealthy(d.news[p.j].id)] + Waiting(d, p.j + 1);
    }
  }

  /** The weights on the way stay below 100. */
  predicate Below(p: Point) {
    OnCanary(p) ==> p.weight < 100
  }

  lemma CanaryStays(d: Deployment, p: Point, step: Step)
    requires d.strategy.Canary? && CanaryPoint(p) && Below(p) && Follow(d, p, step).Some?
    ensures var q := Follow(d, p, step).value; q == Failed(p) || ((CanaryPoint(q) || q.Done?) && Below(q))
  {
    hide SplitUpstream, WeightState, NewOnly, FreshState, FinishedState, BackupUpstream;
  }

  lemma CanaryStep(d: Deployment, p: Point, step: Step)
    requires d.strategy.Canary? && d.config.Validated() && CanaryPoint(p) && Below(p) && Follow(d, p, step).Some?
    ensures CanaryRest(d, p) != [] && CanaryRest(d, p)[0] == step.op
    ensures var q := Follow(d, p, step).value;
      q == Failed(p) || (CanaryRest(d, p)[1..] == CanaryRest(d, q) && (CanaryPoint(q) || q.Done?) && Below(q))
  {
    hide Follow, CanaryRest;
    CanaryStays(d, p, step);
    if OnCanary(p) {
      ShiftStep(d, p, step);
    } else if p.Sweep? {
      RetireStep(d, p.j, p.removing, step);
    } else if p.Start? || p.Healthy? {
      RiseStep(d, p, step);
    } else {
      PromoteStep(d, p, step);
    }
  }

  lemma {:induction false} CanaryTrack(d: Deployment, log: Log)
    requires d.strategy.Canary? && d.config.Validated() && Path(d, Start, log).Some?
    ensures var p := Path(d, Start, log).value;
      if p.Failed? then Ops(log) <= CanaryScript(d)
      else (CanaryPoint(p) || p.Done?) && Below(p) && Ops(log) + CanaryRest(d, p) == CanaryScript(d)
  {
    hide Follow, CanaryScript, CanaryPoint, Below, CanaryRest;
    if log.Then? {
      CanaryTrack(d, log.before);
      var p := Path(d, Start, log.before).value;
      assert !p.Failed? && !p.Done? by { EndedStays(d, p, log.last); }
      CanaryStep(d, p, log.last);
      OneDone(Ops(log.before), log.last.op, CanaryRest(d, p), CanaryScript(d));
    } else {
      CanaryBegins(d);
      assert Ops(log) + CanaryRest(d, Start) == CanaryRest(d, Start);
    }
  }

  lemma CanaryBegins(d: Deployment)
    ensures CanaryPoint(Start) && Below(Start) && CanaryRest(d, Start) == CanaryScript(d)
  {
  }

  /** Whatever fails, a canary run does what its list says, in that order and nothing
      else, and it gets to its end exactly by doing all of it. */
  lemma CanaryFollowsScript(d: Deployment, log: Log)
    requires d.strategy.Canary? && d.config.Validated() && Path(d, Start, log).Some?
    ensures Ops(log) <= CanaryScript(d)
    ensures Path(d, Start, log) == Some(Done) ==> Ops(log) == CanaryScript(d)
  {
    hide Path, CanaryScript, Ops;
    CanaryTrack(d, log);
    var p := Path(d, Start, log).value;
    if p.Done? {
      assert Ops(log) + [] == Ops(log);
    }
  }
}
