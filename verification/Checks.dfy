/** What a blue-green release asks of its check command before users move. All of
    it is said of the effects alone, whatever the control flow that led to them. */
module Checks {
  import opened Rollout
  import opened Machine

  /** The check of this container passed with this token. */
  predicate Passed(log: Log, id: string, token: string) {
    log.Then? && (log.last == Step(RunCheck(id, token, ""), true) || Passed(log.before, id, token))
  }

  /** The token of the preview that the proxy last took, or none. */
  function PublishedToken(log: Log): string {
    if log.Empty? then ""
    else if log.last.ok && log.last.op.Configure? && log.last.op.upstream.preview != [] then
      log.last.op.upstream.previewToken
    else PublishedToken(log.before)
  }

  /** Whether a config sends ordinary requests to one of these containers. */
  predicate SendsTo(u: Upstream, cs: seq<Container>) {
    exists c :: c in cs && c.addr in Live(u.servers)
  }

  /** The points from the switch on. */
  predicate Switching(p: Point)
    decreases p
  {
    if p.Failed? then Switching(p.at)
    else
      || p.Cutover? || p.RecordCut? || p.Window? || p.Soak? || p.Promote? || p.PromoteDrain? || p.PromotePlain?
      || p.Roll? || p.RollDrain? || p.CloseRoll? || p.Finish? || p.Done?
      || (p.Sweep? && (p.why.Retire? || p.why.GiveBack?))
  }

  /** The points of a blue-green release up to the switch, and of its undo. */
  predicate Waiting(p: Point)
    decreases p
  {
    if p.Failed? then Waiting(p.at)
    else
      || p.Start? || p.Healthy? || p.Token? || p.Publish? || p.Check? || p.Withdraw? || p.CloseUndo?
      || (p.Sweep? && p.why.Undo?)
  }

  /** The first `k` new containers passed with the published token. */
  predicate FirstPassed(d: Deployment, log: Log, k: nat)
    requires k <= |d.news|
  {
    forall i :: 0 <= i < k ==> Passed(log, d.news[i].id, PublishedToken(log))
  }

  /** What a run has checked at each of its points. */
  predicate CheckedAt(d: Deployment, p: Point, log: Log) {
    if p.Check? then p.j <= |d.news| && PublishedToken(log) == p.token && FirstPassed(d, log, p.j)
    else if Switching(p) then d.config.checkCommand != "" ==> FirstPassed(d, log, |d.news|)
    else if p.Start? || p.Healthy? || p.Token? || p.Publish? then Waiting(p) && PublishedToken(log) == ""
    else p.RolledBack? || Waiting(p)
  }

  lemma PreviewHas(d: Deployment, token: string)
    ensures PreviewUpstream(d, token).preview == Plain(d.news) && PreviewUpstream(d, token).previewToken == token
  {
  }

  /** The configs from the switch on. */
  ghost predicate AtSwitch(d: Deployment, u: Upstream) {
    u == CutUpstream(d) || (exists a :: u == OldOnly(d, a) || u == NewOnly(d, a) || u == BackupUpstream(d, a))
  }

  lemma NoOther(d: Deployment, u: Upstream)
    requires AtSwitch(d, u)
    ensures u.preview == []
  {
    hide Plain, Weighted, Backups, ApplySettings;
  }

  /** What is checked stays checked unless another preview is published. */
  lemma Stays(log: Log, id: string)
    requires log.Then? && PublishedToken(log) == PublishedToken(log.before)
    requires Passed(log.before, id, PublishedToken(log.before))
    ensures Passed(log, id, PublishedToken(log))
  {
  }

  lemma PublishStep(d: Deployment, log: Log, p: Point)
    requires d.strategy.BlueGreen? && |d.news| > 0 && log.Then? && CheckedAt(d, p, log.before) && p.Publish?
    requires Follow(d, p, log.last).Some?
    ensures CheckedAt(d, Follow(d, p, log.last).value, log)
  {
    hide PreviewUpstream;
    PreviewHas(d, p.token);
  }

  lemma CheckStep(d: Deployment, log: Log, p: Point)
    requires d.strategy.BlueGreen? && |d.news| > 0 && log.Then? && CheckedAt(d, p, log.before) && p.Check?
    requires Follow(d, p, log.last).Some?
    ensures CheckedAt(d, Follow(d, p, log.last).value, log)
  {
    hide CutUpstream, OldOnly, Victims;
    assert PublishedToken(log) == p.token;
    forall i | 0 <= i < p.j ensures Passed(log, d.news[i].id, p.token) {
      Stays(log, d.news[i].id);
    }
  }

  lemma CutFacts(d: Deployment, p: Point, step: Step)
    requires d.strategy.BlueGreen? && Switching(p) && OnBlueGreen(p) && Follow(d, p, step).Some?
    ensures var q := Follow(d, p, step).value; Switching(q) || q.RolledBack?
    ensures step.op.Configure? ==> AtSwitch(d, step.op.upstream)
  {
    hide OldOnly, NewOnly, BackupUpstream, Victims, FreshState, Errors, WeightState;
  }

  lemma BackFacts(d: Deployment, p: Point, step: Step)
    requires d.strategy.BlueGreen? && Switching(p) && OnBack(p) && Follow(d, p, step).Some?
    ensures var q := Follow(d, p, step).value; Switching(q) || q.RolledBack?
    ensures step.op.Configure? ==> AtSwitch(d, step.op.upstream)
  {
    hide CutUpstream, NewOnly, BackupUpstream, Victims, SettledState;
  }

  lemma EndFacts(d: Deployment, p: Point, step: Step)
    requires d.strategy.BlueGreen? && Switching(p) && !OnBlueGreen(p) && !OnBack(p) && Follow(d, p, step).Some?
    ensures var q := Follow(d, p, step).value; Switching(q) || q.RolledBack?
    ensures step.op.Configure? ==> AtSwitch(d, step.op.upstream)
  {
    hide CutUpstream, OldOnly, Victims, FinishedState;
  }

  lemma SwitchFacts(d: Deployment, p: Point, step: Step)
    requires d.strategy.BlueGreen? && Switching(p) && Follow(d, p, step).Some?
    ensures var q := Follow(d, p, step).value; Switching(q) || q.RolledBack?
    ensures step.op.Configure? ==> AtSwitch(d, step.op.upstream)
  {
    hide Follow, Switching, AtSwitch;
    if OnBlueGreen(p) {
      CutFacts(d, p, step);
    } else if OnBack(p) {
      BackFacts(d, p, step);
    } else {
      EndFacts(d, p, step);
    }
  }

  lemma SwitchStep(d: Deployment, log: Log, p: Point)
    requires d.strategy.BlueGreen? && |d.news| > 0 && log.Then? && CheckedAt(d, p, log.before) && Switching(p)
    requires Follow(d, p, log.last).Some?
    ensures CheckedAt(d, Follow(d, p, log.last).value, log)
  {
    hide Follow, CutUpstream, OldOnly, NewOnly, BackupUpstream;
    SwitchFacts(d, p, log.last);
    if d.config.checkCommand != "" {
      if log.last.op.Configure? {
        NoOther(d, log.last.op.upstream);
      }
      forall i | 0 <= i < |d.news| ensures Passed(log, d.news[i].id, PublishedToken(log)) {
        Stays(log, d.news[i].id);
      }
    }
  }

  lemma WaitStep(d: Deployment, log: Log, p: Point)
    requires d.strategy.BlueGreen? && |d.news| > 0 && log.Then? && CheckedAt(d, p, log.before)
    requires Waiting(p) && !p.Check? && !p.Publish? && Follow(d, p, log.last).Some?
    ensures CheckedAt(d, Follow(d, p, log.last).value, log)
  {
    hide CutUpstream, OldOnly, FreshState, Victims;
  }

  lemma {:induction false} RunChecked(d: Deployment, log: Log)
    requires d.strategy.BlueGreen? && |d.news| > 0 && Path(d, Start, log).Some?
    ensures CheckedAt(d, Path(d, Start, log).value, log)
  {
    hide Follow, Waiting, Switching, FirstPassed;
    if log.Then? {
      RunChecked(d, log.before);
      var p := Path(d, Start, log.before).value;
      if p.Check? {
        CheckStep(d, log, p);
      } else if p.Publish? {
        PublishStep(d, log, p);
      } else if Switching(p) {
        SwitchStep(d, log, p);
      } else {
        assert !p.RolledBack? by { NoneAtEnd(d, p, log.last); }
        WaitStep(d, log, p);
      }
    } else {
      StartWaits(d);
    }
  }

  lemma StartWaits(d: Deployment)
    ensures CheckedAt(d, Start, Empty)
  {
  }

  lemma NoneAtEnd(d: Deployment, p: Point, step: Step)
    requires Follow(d, p, step).Some?
    ensures !Ended(p)
  {
  }

  /** No config sends users to a new container before every new container passed the
      check, with the token of the preview that the proxy then had. */
  lemma ChecksPrecedeTraffic(d: Deployment, log: Log)
    requires WellFormed(d) && d.strategy.BlueGreen? && d.config.checkCommand != ""
    requires Path(d, Start, log).Some? && log.Then?
    requires log.last.op.Configure? && SendsTo(log.last.op.upstream, d.news)
    ensures forall c :: c in d.news ==> Passed(log.before, c.id, PublishedToken(log.before))
  {
    hide WellFormed, Live, Follow, Waiting, Switching;
    assert |d.news| > 0 && |d.olds| > 0 by { Both(d); }
    RunChecked(d, log.before);
    var p := Path(d, Start, log.before).value;
    if p.Check? || !Switching(p) {
      assert !p.RolledBack? by { NoneAtEnd(d, p, log.last); }
      NoTrafficYet(d, p, log.last);
    } else {
      assert FirstPassed(d, log.before, |d.news|);
    }
  }

  lemma Both(d: Deployment)
    requires WellFormed(d)
    ensures |d.news| > 0 && |d.olds| > 0 && d.hasProxy
  {
  }

  /** Every config before the switch sends users to the old containers. */
  lemma NoTrafficYet(d: Deployment, p: Point, step: Step)
    requires WellFormed(d) && (p.Check? || Waiting(p)) && Follow(d, p, step).Some? && step.op.Configure?
    ensures !SendsTo(step.op.upstream, d.news)
  {
    hide Live, OldOnly, PreviewUpstream, FreshState, Victims;
    var u := step.op.upstream;
    assert u == OldOnly(d, d.config.affinity) || (p.Publish? && u == PreviewUpstream(d, p.token));
    LiveOfOldOnly(d, d.config.affinity, if p.Publish? then p.token else "");
    forall c | c in d.news ensures c.addr !in Addrs(d.olds) {
      forall i | 0 <= i < |d.olds| ensures Addrs(d.olds)[i] != c.addr {
        assert d.olds[i] in d.olds;
      }
    }
  }

  // ------------------------------------------------------- what the check meets

  /** What the proxy has while the new containers are checked. */
  predicate PreviewAt(d: Deployment, p: Point, s: World) {
    if p.Check? then
      d.config.HasPreview() ==>
        s.accepted == PreviewUpstream(d, p.token) &&
          (if d.config.previewToken == "" then p.token == "" else LiveToken(d.config, p.token))
    else if p.Publish? then
      d.config.HasPreview() && (if d.config.previewToken == "" then p.token == "" else LiveToken(d.config, p.token))
    else p.Token? ==> d.config.HasPreview() && d.config.previewToken != ""
  }

  lemma PreviewStep(d: Deployment, p: Point, s: World, step: Step)
    requires PreviewAt(d, p, s) && Follow(d, p, step).Some?
    ensures PreviewAt(d, Follow(d, p, step).value, Apply(s, step))
  {
    hide OldOnly, CutUpstream, PreviewUpstream, Victims, AddrSet, Errors;
    if !OnBlueGreen(p) {
      hide Apply, Live, PreviewAt;
      PreviewElsewhere(d, p, s, step);
    }
  }

  lemma PreviewLinear(d: Deployment, p: Point, s: World, step: Step)
    requires OnLinear(p) && Follow(d, p, step).Some?
    ensures PreviewAt(d, Follow(d, p, step).value, s)
  {
    hide NewOnly, StepUpstream, SwapState;
  }

  lemma PreviewBack(d: Deployment, p: Point, s: World, step: Step)
    requires OnBack(p) && Follow(d, p, step).Some?
    ensures PreviewAt(d, Follow(d, p, step).value, s)
  {
    hide OldOnly, TargetUpstream, SettledState, Victims;
  }

  lemma PreviewSweep(d: Deployment, p: Point, s: World, step: Step)
    requires p.Sweep? && Follow(d, p, step).Some?
    ensures PreviewAt(d, Follow(d, p, step).value, s)
  {
    hide Victims;
  }

  lemma PreviewRise(d: Deployment, p: Point, s: World, step: Step)
    requires !OnBlueGreen(p) && !OnBack(p) && !OnLinear(p) && !p.Sweep? && Follow(d, p, step).Some?
    ensures PreviewAt(d, Follow(d, p, step).value, s)
  {
    hide NewOnly, BackupUpstream, SplitUpstream, FreshState, FinishedState;
  }

  lemma PreviewElsewhere(d: Deployment, p: Point, s: World, step: Step)
    requires !OnBlueGreen(p) && Follow(d, p, step).Some?
    ensures PreviewAt(d, Follow(d, p, step).value, Apply(s, step))
  {
    hide Follow, Apply, PreviewAt;
    if OnLinear(p) {
      PreviewLinear(d, p, Apply(s, step), step);
    } else if OnBack(p) {
      PreviewBack(d, p, Apply(s, step), step);
    } else if p.Sweep? {
      PreviewSweep(d, p, Apply(s, step), step);
    } else {
      PreviewRise(d, p, Apply(s, step), step);
    }
  }

  lemma {:induction false} RunPreviews(d: Deployment, start: World, log: Log)
    requires Path(d, Start, log).Some?
    ensures PreviewAt(d, Path(d, Start, log).value, Replay(start, log))
  {
    hide Follow, Apply;
    if log.Then? {
      RunPreviews(d, start, log.before);
      PreviewStep(d, Path(d, Start, log.before).value, Replay(start, log.before), log.last);
    }
  }

  /** A release with a preview is checked while the preview answers: with the token that
      the check is given, on exactly the new containers in their order, and with the old
      ones serving everyone else. */
  lemma ChecksMeetThePreview(d: Deployment, start: World, log: Log)
    requires d.config.HasPreview() && Path(d, Start, log).Some? && log.Then? && log.last.op.RunCheck?
    ensures var u, token := Replay(start, log.before).accepted, log.last.op.token;
      && |u.preview| == |d.news|
      && (forall i :: 0 <= i < |d.news| ==> u.preview[i] == Server(d.news[i].addr, 0, false, false, ""))
      && u.previewToken == token && Live(u.servers) == Addrs(d.olds)
      && (d.config.previewToken == "auto" ==> token != "")
      && (d.config.previewToken != "auto" ==> token == d.config.previewToken)
  {
    hide Path, Replay, Live, PreviewUpstream;
    var p := BeforeStep(d, log);
    assert p.Check? && p.token == log.last.op.token by { ChecksAreAtChecks(d, p, log.last); }
    RunPreviews(d, start, log.before);
    PreviewHas(d, p.token);
    LiveOfOldOnly(d, "", p.token);
  }

  lemma BeforeStep(d: Deployment, log: Log) returns (p: Point)
    requires Path(d, Start, log).Some? && log.Then?
    ensures Path(d, Start, log.before) == Some(p) && Follow(d, p, log.last).Some?
  {
    p := Path(d, Start, log.before).value;
  }

  lemma ChecksAreAtChecks(d: Deployment, p: Point, step: Step)
    requires Follow(d, p, step).Some? && step.op.RunCheck?
    ensures p.Check? && p.token == step.op.token
  {
    hide OldOnly, NewOnly, StepUpstream, CutUpstream, PreviewUpstream, BackupUpstream, SplitUpstream, Victims;
  }

  // ------------------------------------------------------------ what undoes it

  /** A check failed with this reason, or the window ended with it. */
  predicate Blamed(log: Log, reason: string) {
    log.Then? &&
    (|| (log.last.op.RunCheck? && log.last.op.reason == reason && reason != "")
     || (log.last.op.Watch? && log.last.ok && log.last.op.reason == reason && !log.last.op.end.Clean?)
     || Blamed(log.before, reason))
  }

  /** The reason for which a run goes back, at the points where it does. */
  function ReasonAt(p: Point): Option<string>
    decreases p
  {
    match p
    case Failed(at) => ReasonAt(at)
    case Withdraw(reason) => Some(reason)
    case CloseUndo(reason) => Some(reason)
    case Roll(reason) => Some(reason)
    case RollDrain(reason) => Some(reason)
    case CloseRoll(reason) => Some(reason)
    case RolledBack(reason) => Some(reason)
    case Sweep(why, _, _) => (match why
      case Undo(reason) => Some(reason)
      case GiveBack(reason) => Some(reason)
      case _ => None)
    case _ => None
  }

  predicate BackOrForth(p: Point)
    decreases p
  {
    if p.Failed? then BackOrForth(p.at)
    else
      && !p.MarkRolling? && !p.Abort? && !p.AbortDrain? && !p.CloseAbort? && !p.Aborted?
      && !(p.Sweep? && p.why.Discard?)
  }

  lemma ReasonFromBlueGreen(d: Deployment, p: Point, step: Step)
    requires OnBlueGreen(p) && BackOrForth(p) && Follow(d, p, step).Some?
    ensures var q := Follow(d, p, step).value;
      && BackOrForth(q)
      && (ReasonAt(q).Some? && ReasonAt(q) != ReasonAt(p) ==> Blamed(Then(Empty, step), ReasonAt(q).value))
  {
    hide OldOnly, CutUpstream, PreviewUpstream, Errors, FreshState, Victims;
  }

  lemma ReasonFromOther(d: Deployment, p: Point, step: Step)
    requires !OnBlueGreen(p) && !OnBack(p) && !p.Sweep? && BackOrForth(p) && Follow(d, p, step).Some?
    ensures var q := Follow(d, p, step).value;
      BackOrForth(q) && ReasonAt(q).None?
  {
    hide NewOnly, StepUpstream, BackupUpstream, SplitUpstream, Victims, SwapState, FreshState, FinishedState;
  }

  lemma ReasonFromBack(d: Deployment, p: Point, step: Step)
    requires (OnBack(p) || p.Sweep?) && BackOrForth(p) && Follow(d, p, step).Some?
    ensures var q := Follow(d, p, step).value;
      BackOrForth(q) && (ReasonAt(q).Some? ==> ReasonAt(q) == ReasonAt(p))
  {
    hide OldOnly, TargetUpstream, SettledState, Victims;
  }

  lemma ReasonStep(d: Deployment, log: Log, p: Point)
    requires log.Then? && BackOrForth(p) && Follow(d, p, log.last).Some?
    requires ReasonAt(p).Some? ==> Blamed(log.before, ReasonAt(p).value)
    ensures var q := Follow(d, p, log.last).value;
      BackOrForth(q) && (ReasonAt(q).Some? ==> Blamed(log, ReasonAt(q).value))
  {
    hide Follow, BackOrForth, ReasonAt;
    if OnBlueGreen(p) {
      ReasonFromBlueGreen(d, p, log.last);
    } else if OnBack(p) || p.Sweep? {
      ReasonFromBack(d, p, log.last);
    } else {
      ReasonFromOther(d, p, log.last);
    }
  }

  lemma {:induction false} RunsHaveReasons(d: Deployment, log: Log)
    requires Path(d, Start, log).Some?
    ensures var p := Path(d, Start, log).value;
      BackOrForth(p) && (ReasonAt(p).Some? ==> Blamed(log, ReasonAt(p).value))
  {
    hide Follow, BackOrForth, ReasonAt;
    if log.Then? {
      RunsHaveReasons(d, log.before);
      ReasonStep(d, log, Path(d, Start, log.before).value);
    } else {
      StartHasNone();
    }
  }

  lemma StartHasNone()
    ensures BackOrForth(Start) && ReasonAt(Start).None?
  {
  }

  /** A release is undone only for a check that failed or a window that did not end
      clean, and for the reason that this gave. */
  lemma UndoneForAReason(d: Deployment, log: Log, reason: string)
    requires Path(d, Start, log) == Some(RolledBack(reason))
    ensures Blamed(log, reason)
  {
    hide Path;
    RunsHaveReasons(d, log);
  }
}
