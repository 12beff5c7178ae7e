/** Requests beside the main traffic: to servers a config lists as a preview, as a
    backup or as draining. Here is exactly when a stop meets one of those. */
module SideTraffic {
  import opened Rollout
  import opened Machine
  import opened Promise
  import opened Safety

  /** The addresses a config lists, but not for ordinary new requests. */
  function Aside(u: Upstream): set<string> {
    (set s | s in u.servers && (s.down || s.backup) :: s.addr) + (set s | s in u.preview :: s.addr)
  }

  /** The addresses that a config lists aside or did since the last wait of any
      length, and so may have such requests in flight; `before` are those there were
      when the run began. */
  function Lingering(before: set<string>, start: World, log: Log): set<string> {
    match log
    case Empty => before
    case Then(early, last) => LingersOn(Lingering(before, start, early), Replay(start, early).accepted, last)
  }

  function LingersOn(h: set<string>, u: Upstream, step: Step): set<string> {
    if !step.ok then h
    else
      match step.op
      case Configure(next) => h + Aside(next)
      case Pause(length) => if length > 0 then Aside(u) else h
      case Watch(_, end, _) => if end.Clean? then Aside(u) else h
      case _ => h
  }

  function Accepted(u: Upstream, step: Step): Upstream {
    if step.ok && step.op.Configure? then step.op.upstream else u
  }

  // ------------------------------------------------- what configs list aside

  lemma NoneAside(d: Deployment, affinity: string, weight: int, targets: seq<Container>)
    ensures Aside(OldOnly(d, affinity)) == {} && Aside(NewOnly(d, affinity)) == {}
    ensures Aside(SplitUpstream(d, weight)) == {} && Aside(TargetUpstream(d, targets)) == {}
  {
  }

  lemma StepAside(d: Deployment, i: nat)
    requires i < d.Replacements()
    ensures Aside(StepUpstream(d, i)) == {d.olds[i].addr}
  {
    var news, olds := Plain(d.news[..i + 1]), Plain(d.olds[i + 1..]);
    var displaced := Server(d.olds[i].addr, 0, true, false, "");
    assert StepServers(d, i) == news + [displaced] + olds;
    assert displaced in StepServers(d, i) by { assert StepServers(d, i)[|news|] == displaced; }
    forall s | s in StepServers(d, i) && (s.down || s.backup) ensures s == displaced {
      assert s in news || s == displaced || s in olds;
    }
  }

  lemma PreviewAside(d: Deployment, token: string)
    ensures Aside(PreviewUpstream(d, token)) == AddrSet(Addrs(d.news))
  {
    hide AddrSet;
    var u := PreviewUpstream(d, token);
    assert (set s | s in u.servers && (s.down || s.backup) :: s.addr) == {};
    PlainAddrs(d.news);
  }

  lemma PlainAddrs(cs: seq<Container>)
    ensures (set s | s in Plain(cs) :: s.addr) == AddrSet(Addrs(cs))
  {
    forall i | 0 <= i < |cs| ensures Plain(cs)[i].addr in AddrSet(Addrs(cs)) &&
      Addrs(cs)[i] in set s | s in Plain(cs) :: s.addr
    {
      assert Plain(cs)[i] in Plain(cs) && Addrs(cs)[i] in Addrs(cs);
    }
  }

  lemma BackupAside(d: Deployment, affinity: string)
    ensures Aside(BackupUpstream(d, affinity)) == AddrSet(Addrs(d.olds))
  {
    var u := BackupUpstream(d, affinity);
    assert u.servers == Plain(d.news) + Backups(d.olds);
    forall i | 0 <= i < |d.olds| ensures d.olds[i].addr in Aside(u) {
      assert u.servers[|d.news| + i] == Backups(d.olds)[i];
    }
    forall s | s in u.servers && (s.down || s.backup) ensures s.addr in AddrSet(Addrs(d.olds)) {
      assert s in Backups(d.olds);
      var i :| 0 <= i < |d.olds| && Backups(d.olds)[i] == s;
      assert Addrs(d.olds)[i] == s.addr;
    }
  }

  // ------------------------------------------------------------ at each point

  /** Whether a release watches for errors after the switch instead of soaking. */
  predicate Watched(d: Deployment) {
    d.strategy.BlueGreen? && d.config.watch
  }

  function Previewed(d: Deployment): set<string> {
    if d.config.HasPreview() then AddrSet(Addrs(d.news)) else {}
  }

  /** What is listed aside, and what may linger, at the points that lead to a stop.
      `first` is what lingers when a rollback or an abort begins. */
  ghost predicate SideInv(d: Deployment, p: Point, first: set<string>, u: Upstream, h: set<string>)
    decreases p
  {
    match p
    case Failed(at) => SideInv(d, at, first, u, h)
    case Swap(i, phase) =>
      && i < d.Replacements()
      && (phase.DrainOld? ==> d.olds[i].addr in Aside(u))
      && (phase.DrainOld? || phase.StopOld? || phase.RemoveOld? ==> d.olds[i].addr in h)
    case Start => Aside(u) == {} && h == {} && first == Previewed(d)
    case Healthy(_) => !d.strategy.Linear? && Aside(u) == {} && h == {} && first == Previewed(d)
    case Token => d.strategy.BlueGreen? && d.config.HasPreview() && Aside(u) == {} && h == {} && first == Previewed(d)
    case Publish(_) => d.strategy.BlueGreen? && d.config.HasPreview() && Aside(u) == {} && h == {} &&
      first == Previewed(d)
    case Check(_, _) => d.strategy.BlueGreen? && h == first == Previewed(d)
    case Cutover => d.strategy.BlueGreen? && h == first == Previewed(d)
    case Withdraw(_) => h == Previewed(d)
    case RecordCut => d.strategy.BlueGreen? && Aside(u) == {} && h == first
    case Window => Watched(d) && Aside(u) == {} && h == first
    case Soak => !Watched(d)
    case Shift(_) => d.strategy.Canary?
    case RecordShift(_) => d.strategy.Canary?
    case Observe(_) => d.strategy.Canary?
    case Promote => !Watched(d)
    case PromoteDrain => !Watched(d) && AddrSet(Addrs(d.olds)) <= Aside(u) && AddrSet(Addrs(d.olds)) <= h
    case PromotePlain => !Watched(d) && AddrSet(Addrs(d.olds)) <= h
    case Sweep(why, _, _) =>
      (match why
       case Retire => if Watched(d) then h == {} else AddrSet(Addrs(d.olds)) <= h
       case Undo(_) => h == Previewed(d)
       case GiveBack(_) => h == if d.Drains() then {} else first
       case Discard(_) => h == if d.Drains() then {} else first)
    case MarkRolling(_) => h == first
    case Roll(_) => h == first
    case RollDrain(_) => Aside(u) == {} && h == first
    case Abort(_) => h == first
    case AbortDrain(_) => Aside(u) == {} && h == first
    case _ => true
  }

  lemma SideLinear(d: Deployment, p: Point, first: set<string>, u: Upstream, h: set<string>, step: Step)
    requires OnLinear(p) && Allowed(d, p, step) && SideInv(d, p, first, u, h)
    ensures SideInv(d, Next(d, p, step), first, Accepted(u, step), LingersOn(h, u, step))
  {
    hide Aside, StepUpstream, NewOnly, SwapState, GoingBack, AllowedBlueGreen, AllowedBack, NextBlueGreen, NextBack;
    if p.Swap? && p.phase.Route? {
      StepAside(d, p.i);
    }
  }

  lemma SideBlueGreen(d: Deployment, p: Point, first: set<string>, u: Upstream, h: set<string>, step: Step)
    requires OnBlueGreen(p) && Allowed(d, p, step) && SideInv(d, p, first, u, h)
    ensures SideInv(d, Next(d, p, step), first, Accepted(u, step), LingersOn(h, u, step))
  {
    hide Aside, OldOnly, NewOnly, SplitUpstream, PreviewUpstream, Errors, FreshState, Victims, AllowedLinear,
      AllowedBack;
    hide NextLinear, NextBack, GoingBack, AddrSet;
    NoneAside(d, d.config.affinity, d.config.greenWeight, []);
    if p.Publish? {
      PreviewAside(d, p.token);
    }
  }

  lemma SideRoll(d: Deployment, p: Point, first: set<string>, u: Upstream, h: set<string>, step: Step)
    requires d.hasProxy && (p.MarkRolling? || p.Roll? || p.RollDrain? || p.CloseRoll?) && Allowed(d, p, step) &&
      SideInv(d, p, first, u, h)
    ensures SideInv(d, Next(d, p, step), first, Accepted(u, step), LingersOn(h, u, step))
  {
    hide Aside, OldOnly, SettledState, AllowedLinear, AllowedBlueGreen, NextLinear, NextBlueGreen, GoingBack, AddrSet;
    NoneAside(d, "", 0, []);
  }

  lemma SideAbort(d: Deployment, p: Point, first: set<string>, u: Upstream, h: set<string>, step: Step)
    requires (p.Abort? || p.AbortDrain? || p.CloseAbort?) && Allowed(d, p, step) && SideInv(d, p, first, u, h)
    ensures SideInv(d, Next(d, p, step), first, Accepted(u, step), LingersOn(h, u, step))
  {
    hide Aside, TargetUpstream, OldOnly, SettledState, Victims, AllowedLinear, AllowedBlueGreen, NextLinear;
    hide NextBlueGreen, GoingBack, AddrSet, Previewed, Watched, Live;
    NoneAside(d, "", 0, p.targets);
  }

  lemma SideBegin(d: Deployment, p: Point, first: set<string>, u: Upstream, h: set<string>, step: Step)
    requires (p.Start? || p.Healthy?) && Allowed(d, p, step) && SideInv(d, p, first, u, h)
    ensures SideInv(d, Next(d, p, step), first, Accepted(u, step), LingersOn(h, u, step))
  {
    hide Aside, FreshState, AllowedLinear, AllowedBlueGreen, AllowedBack, NextLinear, NextBlueGreen, NextBack,
      GoingBack;
    hide AddrSet;
  }

  lemma SideCanary(d: Deployment, p: Point, first: set<string>, u: Upstream, h: set<string>, step: Step)
    requires OnCanary(p) && Allowed(d, p, step) && SideInv(d, p, first, u, h)
    ensures SideInv(d, Next(d, p, step), first, Accepted(u, step), LingersOn(h, u, step))
  {
    hide Aside, SplitUpstream, WeightState, AllowedLinear, AllowedBlueGreen, AllowedBack, NextLinear, NextBlueGreen;
    hide NextBack, GoingBack, AddrSet;
    if p.Shift? {
      NoneAside(d, "", p.weight, []);
    }
  }

  lemma SidePromote(d: Deployment, p: Point, first: set<string>, u: Upstream, h: set<string>, step: Step)
    requires (p.Promote? || p.PromoteDrain? || p.PromotePlain? || p.Finish?) && Allowed(d, p, step) &&
      SideInv(d, p, first, u, h)
    ensures SideInv(d, Next(d, p, step), first, Accepted(u, step), LingersOn(h, u, step))
  {
    hide Aside, BackupUpstream, NewOnly, FinishedState, AllowedLinear, AllowedBlueGreen, AllowedBack, NextLinear;
    hide NextBlueGreen, NextBack, GoingBack, AddrSet;
    NoneAside(d, "", 0, []);
    BackupAside(d, DrainAffinity(d));
  }

  lemma SideSweep(d: Deployment, p: Point, first: set<string>, u: Upstream, h: set<string>, step: Step)
    requires p.Sweep? && Allowed(d, p, step) && SideInv(d, p, first, u, h)
    ensures SideInv(d, Next(d, p, step), first, Accepted(u, step), LingersOn(h, u, step))
  {
    hide Aside, Victims, AddrSet;
  }

  lemma SideStep(d: Deployment, p: Point, first: set<string>, u: Upstream, h: set<string>, step: Step)
    requires d.hasProxy && Allowed(d, p, step) && SideInv(d, p, first, u, h)
    ensures SideInv(d, Next(d, p, step), first, Accepted(u, step), LingersOn(h, u, step))
  {
    hide Next, Accepted, LingersOn, SideInv;
    if OnLinear(p) {
      SideLinear(d, p, first, u, h, step);
    } else if OnBlueGreen(p) {
      SideBlueGreen(d, p, first, u, h, step);
    } else if p.Abort? || p.AbortDrain? || p.CloseAbort? {
      SideAbort(d, p, first, u, h, step);
    } else if OnBack(p) {
      SideRoll(d, p, first, u, h, step);
    } else if p.Sweep? {
      SideSweep(d, p, first, u, h, step);
    } else if OnCanary(p) {
      SideCanary(d, p, first, u, h, step);
    } else if p.Start? || p.Healthy? {
      SideBegin(d, p, first, u, h, step);
    } else {
      SidePromote(d, p, first, u, h, step);
    }
  }

  lemma {:induction false} SideRun(d: Deployment, entry: Point, first: set<string>, before: set<string>,
                                   start: World, log: Log)
    requires d.hasProxy && Path(d, entry, log).Some? && SideInv(d, entry, first, start.accepted, before)
    ensures SideInv(d, Path(d, entry, log).value, first, Replay(start, log).accepted, Lingering(before, start, log))
  {
    hide Next, Allowed, SideInv, LingersOn, Aside;
    if log.Then? {
      SideRun(d, entry, first, before, start, log.before);
      var p, now := Path(d, entry, log.before).value, Replay(start, log.before);
      SideStep(d, p, first, now.accepted, Lingering(before, start, log.before), log.last);
    }
  }

  // ----------------------------------------------------------------- theorems

  /** The points at which a stop or removal meets a container that is listed aside, or
      was since the last wait: the drained one of a linear replacement, which is
      listed as down; the new ones of an undone preview; the old ones of a
      promotion, which were backups till the config before; and in a rollback or an
      abort that does not drain, those that were listed aside when it began. */
  predicate MeetsSideTraffic(d: Deployment, p: Point, first: set<string>, c: Container) {
    || p.Swap?
    || (p.Sweep? &&
        match p.why
        case Retire => !Watched(d)
        case Undo(_) => d.config.HasPreview()
        case GiveBack(_) => !d.Drains() && c.addr in first
        case Discard(_) => !d.Drains() && c.addr in first)
  }

  /** Exactly there, in every run of a release. */
  lemma ReleaseMeetsSideTraffic(d: Deployment, start: World, log: Log, c: Container)
    requires WellFormed(d) && log.Then? && Path(d, Start, log).Some? && (log.last.op.Stop? || log.last.op.Remove?)
    requires Aside(start.accepted) == {} && Mine(d, c) && c.id == log.last.op.id
    ensures c.addr in Lingering({}, start, log.before)
       <==> MeetsSideTraffic(d, Path(d, Start, log.before).value, Previewed(d), c)
  {
    hide Path, Lingering, Aside, Replay, WellFormed, Previewed;
    StopMeetsSideTraffic(d, Start, Previewed(d), {}, start, log, c);
  }

  /** And in every run of an abort, or of a rollback from a saved state. */
  lemma WayBackMeetsSideTraffic(d: Deployment, entry: Point, before: set<string>, start: World, log: Log, c: Container)
    requires WellFormed(d) && log.Then? && Path(d, entry, log).Some? && (log.last.op.Stop? || log.last.op.Remove?)
    requires (entry.Abort? || entry.MarkRolling?) && Mine(d, c) && c.id == log.last.op.id
    ensures c.addr in Lingering(before, start, log.before)
       <==> MeetsSideTraffic(d, Path(d, entry, log.before).value, before, c)
  {
    hide Path, Lingering, Aside, Replay, WellFormed;
    StopMeetsSideTraffic(d, entry, before, before, start, log, c);
  }

  lemma StopMeetsSideTraffic(d: Deployment, entry: Point, first: set<string>, before: set<string>, start: World,
                             log: Log, c: Container)
    requires WellFormed(d) && log.Then? && Path(d, entry, log).Some? && (log.last.op.Stop? || log.last.op.Remove?)
    requires SideInv(d, entry, first, start.accepted, before) && Mine(d, c) && c.id == log.last.op.id
    ensures c.addr in Lingering(before, start, log.before)
       <==> MeetsSideTraffic(d, Path(d, entry, log.before).value, first, c)
  {
    hide Path, Lingering, Aside, Replay, WellFormed, SideInv;
    LastStep(d, entry, log);
    assert d.hasProxy by { HasProxy(d); }
    SideRun(d, entry, first, before, start, log.before);
    var now := Replay(start, log.before);
    StoppedHere(d, Path(d, entry, log.before).value, first, log.last, c, now.accepted,
      Lingering(before, start, log.before));
  }

  lemma HasProxy(d: Deployment)
    requires WellFormed(d)
    ensures d.hasProxy
  {
  }

  lemma LastStep(d: Deployment, entry: Point, log: Log)
    requires log.Then? && Path(d, entry, log).Some?
    ensures Path(d, entry, log.before).Some? && Allowed(d, Path(d, entry, log.before).value, log.last)
  {
  }

  lemma StoppedHere(d: Deployment, p: Point, first: set<string>, step: Step, c: Container, u: Upstream, h: set<string>)
    requires WellFormed(d) && Allowed(d, p, step) && (step.op.Stop? || step.op.Remove?)
    requires Mine(d, c) && c.id == step.op.id && SideInv(d, p, first, u, h)
    ensures c.addr in h <==> MeetsSideTraffic(d, p, first, c)
  {
    hide Aside, WellFormed, Victims;
    StoppedIs(d, p, step, c);
    AddrIn(if p.Swap? || p.why.Retire? then d.olds else d.news, c);
  }

  /** Which containers a stop or removal is about. */
  lemma StoppedIs(d: Deployment, p: Point, step: Step, c: Container)
    requires WellFormed(d) && Allowed(d, p, step) && (step.op.Stop? || step.op.Remove?)
    requires Mine(d, c) && c.id == step.op.id
    ensures p.Swap? || p.Sweep?
    ensures p.Swap? ==>
      p.i < d.Replacements() && c == d.olds[p.i] && c in d.olds && (p.phase.StopOld? || p.phase.RemoveOld?)
    ensures p.Sweep? ==> c in (if p.why.Retire? then d.olds else d.news)
    ensures p.Sweep? && p.why.Discard? ==> c.id !in Ids(p.why.targets)
  {
    hide WellFormed, Victims;
    if p.Swap? {
      assert d.olds[p.i] in d.olds;
      SameContainer(d, c, d.olds[p.i]);
    } else {
      var x := Swept(d, p.why)[p.j];
      assert x in Swept(d, p.why);
      SameContainer(d, c, x);
    }
  }
}
