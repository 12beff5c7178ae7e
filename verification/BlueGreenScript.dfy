/** The blue-green strategy as flat lists of effects, written out: one for a release
    that completes, and two for one that is undone. */
module BlueGreenScript {
  import opened Rollout
  import opened Machine
  import opened Checks
  import opened Scripts

  function Waited(d: Deployment, j: nat): seq<Op>
    requires j <= |d.news|
  {
    seq(j, i requires 0 <= i < j => Op.WaitHealthy(d.news[i].id))
  }

  function Checked(d: Deployment, token: string, j: nat): seq<Op>
    requires j <= |d.news|
  {
    seq(j, i requires 0 <= i < j => RunCheck(d.news[i].id, token, ""))
  }

  /** The first `j` containers stopped and removed. */
  function Removed(cs: seq<Container>, j: nat): seq<Op>
    requires j <= |cs|
  {
    if j == 0 then [] else Removed(cs, j - 1) + [Op.Stop(cs[j - 1].id), Op.Remove(cs[j - 1].id)]
  }

  function OldAlone(d: Deployment, affinity: string): Op {
    Config(d, affinity, Lines(d.olds, 0, false, ""))
  }

  /** The old containers serve, and the preview answers with the new ones. */
  function PreviewOp(d: Deployment, token: string): Op {
    Configure(ApplySettings(d.config, Upstream(d.service, d.UpstreamName(), Lines(d.olds, 0, false, ""),
                                               d.config.affinity, 0, "", [], ""))
              .(previewToken := token, preview := Lines(d.news, 0, false, "")))
  }

  /** The token of a preview, if it has one, goes on record before the preview is up. */
  function ToPreview(d: Deployment, token: string): seq<Op> {
    [Opened(d, 0)] + Waited(d, |d.news|) +
    (if token != "" then
       [Op.Save(DeploymentState(d.service, InProgress, d.strategy.Tag(), 0, Ids(d.olds), Ids(d.news), "", token,
                                d.config.previewBase))]
     else [])
  }

  function ToChecks(d: Deployment, token: string): seq<Op> {
    ToPreview(d, token) + (if d.config.HasPreview() then [PreviewOp(d, token)] else [])
  }

  function ToSwitch(d: Deployment, token: string): seq<Op> {
    ToChecks(d, token) + (if d.config.checkCommand != "" then Checked(d, token, |d.news|) else [])
  }

  /** With a window all users move at once, else as many as the green weight says. */
  function SwitchOp(d: Deployment): Op {
    if d.config.watch then NewAlone(d, d.config.affinity)
    else Config(d, d.config.affinity, Lines(d.olds, 100 - d.config.greenWeight, false, "stable") +
                                      Lines(d.news, d.config.greenWeight, false, "canary"))
  }

  function Switched(d: Deployment, token: string): seq<Op> {
    ToSwitch(d, token) + [SwitchOp(d), Opened(d, if d.config.watch then 100 else d.config.greenWeight)]
  }

  /** From the switch to the removal of the old containers. */
  function Proven(d: Deployment, token: string, window: Op): seq<Op> {
    Switched(d, token) + (if d.config.watch then [window] else [Pause(d.config.soak)] + Promoting(d, ""))
  }

  /** A release that completes. */
  function Completed(d: Deployment, token: string, window: Op): seq<Op> {
    Proven(d, token, window) + Removed(d.olds, |d.olds|) + [Closed(d)]
  }

  /** A release whose check fails on new container `j`. */
  function CheckFailed(d: Deployment, token: string, j: nat, reason: string): seq<Op>
    requires j < |d.news|
  {
    ToChecks(d, token) + Checked(d, token, j) + [RunCheck(d.news[j].id, token, reason)]
  }

  function Withdrawn(d: Deployment): seq<Op> {
    if d.config.HasPreview() then [OldAlone(d, d.config.affinity)] else []
  }

  /** It is undone: the preview ends, the new containers go, and the record says why. */
  function UndoneEarly(d: Deployment, token: string, j: nat, reason: string): seq<Op>
    requires j < |d.news|
  {
    CheckFailed(d, token, j, reason) + Withdrawn(d) + Removed(d.news, |d.news|) +
    [Op.Save(DeploymentState(d.service, Idle, d.strategy.Tag(), 0, Ids(d.olds), [], reason, "", ""))]
  }

  /** Users go back after the window: to the old containers, then a drain, and the new
      containers go. */
  function UndoneLate(d: Deployment, token: string, window: Op, reason: string): seq<Op> {
    Switched(d, token) + [window] + [OldAlone(d, ""), Pause(d.config.drain)] + Removed(d.news, |d.news|) +
    [Op.Save(DeploymentState(d.service, Idle, d.strategy.Tag(), 0, Ids(d.olds), [], reason, "", ""))]
  }

  /** A release has a token exactly as its settings ask for one. */
  predicate TokenFits(d: Deployment, token: string) {
    if d.config.previewToken == "auto" then token != "" else token == d.config.previewToken
  }

  /** How the last watched window ended. */
  function LastWindow(log: Log): Op {
    if log.Empty? then NoConfig else if log.last.op.Watch? then log.last.op else LastWindow(log.before)
  }

  // -------------------------------------------------------------------- points

  function Half(cs: seq<Container>, j: nat, removing: bool): seq<Op> {
    if removing && j < |cs| then [Op.Stop(cs[j].id)] else []
  }

  ghost predicate UndoneSofar(d: Deployment, token: string, reason: string, ops: seq<Op>, more: seq<Op>) {
    exists j: nat :: j < |d.news| && ops == CheckFailed(d, token, j, reason) + more
  }

  /** What a run has done at each of its points. */
  ghost predicate Track(d: Deployment, p: Point, ops: seq<Op>, t: string, w: Op) {
    match p
    case Start => ops == [] && t == ""
    case Healthy(j) => j < |d.news| && ops == [Opened(d, 0)] + Waited(d, j) && t == ""
    case Token => ops == ToPreview(d, "") && d.config.HasPreview() && t == ""
    case Publish(token) => ops == ToPreview(d, token) && d.config.HasPreview() && TokenFits(d, token)
    case Check(j, token) =>
      && token == t && TokenFits(d, t) && j < |d.news| && d.config.checkCommand != ""
      && ops == ToChecks(d, t) + Checked(d, t, j)
    case Cutover => TokenFits(d, t) && ops == ToSwitch(d, t)
    case RecordCut => TokenFits(d, t) && ops == ToSwitch(d, t) + [SwitchOp(d)]
    case Window => TokenFits(d, t) && d.config.watch && ops == Switched(d, t)
    case Soak => TokenFits(d, t) && !d.config.watch && ops == Switched(d, t)
    case Promote => TokenFits(d, t) && !d.config.watch && ops == Switched(d, t) + [Pause(d.config.soak)]
    case PromoteDrain =>
      TokenFits(d, t) && !d.config.watch && ops == Switched(d, t) + [Pause(d.config.soak)] + Promoting(d, "")[..1]
    case PromotePlain =>
      TokenFits(d, t) && !d.config.watch && ops == Switched(d, t) + [Pause(d.config.soak)] + Promoting(d, "")[..2]
    case Finish =>
      && TokenFits(d, t) && (d.config.watch ==> w.Watch? && w.end.Clean?)
      && ops == Proven(d, t, w) + Removed(d.olds, |d.olds|)
    case Done => TokenFits(d, t) && (d.config.watch ==> w.Watch? && w.end.Clean?) && ops == Completed(d, t, w)
    case Withdraw(reason) =>
      TokenFits(d, t) && reason != "" && d.config.HasPreview() && UndoneSofar(d, t, reason, ops, [])
    case CloseUndo(reason) =>
      TokenFits(d, t) && reason != "" && UndoneSofar(d, t, reason, ops, Withdrawn(d) + Removed(d.news, |d.news|))
    case Roll(reason) =>
      && TokenFits(d, t) && d.config.watch && w.Watch? && !w.end.Clean? && w.reason == reason
      && ops == Switched(d, t) + [w]
    case RollDrain(reason) =>
      && TokenFits(d, t) && d.config.watch && w.Watch? && !w.end.Clean? && w.reason == reason
      && ops == Switched(d, t) + [w] + [OldAlone(d, "")]
    case CloseRoll(reason) =>
      && TokenFits(d, t) && d.config.watch && w.Watch? && !w.end.Clean? && w.reason == reason
      && ops == Switched(d, t) + [w] + [OldAlone(d, ""), Pause(d.config.drain)] + Removed(d.news, |d.news|)
    case RolledBack(reason) =>
      && TokenFits(d, t)
      && (|| (reason != "" && exists j: nat :: j < |d.news| && ops == UndoneEarly(d, t, j, reason))
          || (d.config.watch && w.Watch? && !w.end.Clean? && w.reason == reason && ops == UndoneLate(d, t, w, reason)))
    case Sweep(why, j, removing) => TokenFits(d, t) && SweepTrack(d, why, j, removing, ops, t, w)
    case Failed(_) => true
    case _ => false
  }

  ghost predicate SweepTrack(d: Deployment, why: Why, j: nat, removing: bool, ops: seq<Op>, t: string, w: Op) {
    match why
    case Retire =>
      && j <= |d.olds| && (d.config.watch ==> w.Watch? && w.end.Clean?)
      && ops == Proven(d, t, w) + Removed(d.olds, j) + Half(d.olds, j, removing)
    case Undo(reason) =>
      && j <= |d.news| && reason != ""
      && UndoneSofar(d, t, reason, ops, Withdrawn(d) + Removed(d.news, j) + Half(d.news, j, removing))
    case GiveBack(reason) =>
      && j <= |d.news| && d.config.watch && w.Watch? && !w.end.Clean? && w.reason == reason
      && ops == Switched(d, t) + [w] + [OldAlone(d, ""), Pause(d.config.drain)] + Removed(d.news, j)
                + Half(d.news, j, removing)
    case Discard(_) => false
  }

  // --------------------------------------------------------------------- steps

  function NextToken(t: string, step: Step): string {
    if step.ok && step.op.Configure? && step.op.upstream.preview != [] then step.op.upstream.previewToken else t
  }

  function NextWindow(w: Op, step: Step): Op {
    if step.op.Watch? then step.op else w
  }

  lemma OldIsScript(d: Deployment, affinity: string)
    ensures Configure(OldOnly(d, affinity)) == OldAlone(d, affinity)
    ensures OldOnly(d, affinity).preview == []
  {
    PlainLines(d.olds);
  }

  lemma PreviewIsScript(d: Deployment, token: string)
    requires !d.strategy.Linear?
    ensures Configure(PreviewUpstream(d, token)) == PreviewOp(d, token)
    ensures PreviewUpstream(d, token).preview == Lines(d.news, 0, false, "")
    ensures PreviewUpstream(d, token).previewToken == token
    ensures Op.Save(TokenState(d, token)) ==
      Op.Save(DeploymentState(d.service, InProgress, d.strategy.Tag(), 0, Ids(d.olds), Ids(d.news), "", token,
                              d.config.previewBase))
  {
    PlainLines(d.olds);
    PlainLines(d.news);
  }

  lemma CutIsScript(d: Deployment)
    requires !d.strategy.Linear?
    ensures Configure(CutUpstream(d)) == SwitchOp(d) && CutUpstream(d).preview == []
    ensures Op.Save(WeightState(d, CutWeight(d))) == Opened(d, if d.config.watch then 100 else d.config.greenWeight)
  {
    AloneIsScript(d, d.config.affinity);
    SplitIsScript(d, d.config.greenWeight);
  }

  lemma NoPreviews(d: Deployment, affinity: string)
    ensures NewOnly(d, affinity).preview == [] && BackupUpstream(d, affinity).preview == []
  {
  }

  lemma UndoStates(d: Deployment, reason: string)
    requires !d.strategy.Linear?
    ensures UndoneState(d, reason) ==
      DeploymentState(d.service, Idle, d.strategy.Tag(), 0, Ids(d.olds), [], reason, "", "")
    ensures SettledState(d, d.olds, reason) ==
      DeploymentState(d.service, Idle, d.strategy.Tag(), 0, Ids(d.olds), [], reason, "", "")
  {
  }

  lemma WaitedMore(d: Deployment, j: nat)
    requires j < |d.news|
    ensures Waited(d, j + 1) == Waited(d, j) + [Op.WaitHealthy(d.news[j].id)]
  {
  }

  lemma CheckedMore(d: Deployment, t: string, j: nat)
    requires j < |d.news|
    ensures Checked(d, t, j + 1) == Checked(d, t, j) + [RunCheck(d.news[j].id, t, "")]
  {
  }

  /** Where the checks begin, or the switch if there are none. */
  lemma AtChecks(d: Deployment, t: string, ops: seq<Op>, w: Op)
    requires |d.news| > 0 && TokenFits(d, t) && ops == ToChecks(d, t)
    ensures Track(d, CheckFrom(d, 0, t), ops, t, w)
  {
    hide ToChecks;
    assert Checked(d, t, 0) == [];
    assert ops + [] == ops;
  }

  lemma AfterHealthy(d: Deployment, j: nat, ops: seq<Op>, w: Op)
    requires d.strategy.BlueGreen? && 0 < |d.news| && j <= |d.news| && ops == [Opened(d, 0)] + Waited(d, j)
    ensures Track(d, HealthyFrom(d, j), ops, "", w)
  {
    hide Opened, Waited, PreviewOp;
    assert ops + [] == ops;
    if j == |d.news| && !d.config.HasPreview() {
      AtChecks(d, "", ops, w);
    }
  }

  lemma RiseTracks(d: Deployment, p: Point, ops: seq<Op>, w: Op, step: Step)
    requires d.strategy.BlueGreen? && |d.news| > 0 && (p.Start? || p.Healthy?)
    requires Track(d, p, ops, "", w) && Follow(d, p, step).Some?
    ensures Track(d, Follow(d, p, step).value, ops + [step.op], NextToken("", step), NextWindow(w, step))
  {
    hide Follow, FreshState, HealthyFrom, Opened, Waited;
    RiseFacts(d, p, step);
    AloneIsScript(d, "");
    var j := if p.Start? then 0 else p.j + 1;
    if p.Start? {
      assert Waited(d, 0) == [] by { NothingWaited(d); }
      assert [] + [Opened(d, 0)] == [Opened(d, 0)] + [];
    } else {
      WaitedMore(d, p.j);
      assert [Opened(d, 0)] + Waited(d, p.j) + [step.op] == [Opened(d, 0)] + (Waited(d, p.j) + [step.op]);
    }
    AfterHealthy(d, j, ops + [step.op], w);
  }

  lemma NothingWaited(d: Deployment)
    ensures Waited(d, 0) == []
  {
  }

  lemma PreviewFacts(d: Deployment, p: Point, step: Step)
    requires (p.Token? || p.Publish?) && Follow(d, p, step).Some?
    ensures p.Token? ==>
      step.op.Save? && LiveToken(d.config, step.op.state.token) && step.op.state == TokenState(d, step.op.state.token)
    ensures p.Publish? ==> step.op == Configure(PreviewUpstream(d, p.token))
    ensures var q := Follow(d, p, step).value;
      if !step.ok then q == Failed(p)
      else q == if p.Token? then Publish(step.op.state.token) else CheckFrom(d, 0, p.token)
  {
    hide PreviewUpstream, CheckFrom, TokenState;
  }

  lemma PreviewTracks(d: Deployment, p: Point, ops: seq<Op>, t: string, w: Op, step: Step)
    requires d.strategy.BlueGreen? && |d.news| > 0 && (p.Token? || p.Publish?)
    requires Track(d, p, ops, t, w) && Follow(d, p, step).Some?
    ensures Track(d, Follow(d, p, step).value, ops + [step.op], NextToken(t, step), NextWindow(w, step))
  {
    hide Follow, CheckFrom, Opened, Waited, PreviewUpstream, PreviewOp, TokenState;
    PreviewFacts(d, p, step);
    if step.ok {
      var token := if p.Token? then step.op.state.token else p.token;
      PreviewIsScript(d, token);
      if p.Token? {
        assert ToPreview(d, "") + [step.op] == ToPreview(d, token);
      } else {
        AtChecks(d, token, ops + [step.op], w);
      }
    }
  }

  lemma CheckFacts(d: Deployment, j: nat, t: string, step: Step)
    requires Follow(d, Check(j, t), step).Some?
    ensures j < |d.news| && step.op.RunCheck? && step.op == RunCheck(d.news[j].id, t, step.op.reason)
    ensures Follow(d, Check(j, t), step).value ==
      if step.op.reason == "" then CheckFrom(d, j + 1, t) else UndoFrom(d, step.op.reason)
  {
    hide CheckFrom, UndoFrom;
  }

  lemma CheckTracks(d: Deployment, j: nat, ops: seq<Op>, t: string, w: Op, step: Step)
    requires d.strategy.BlueGreen? && |d.news| > 0 && Track(d, Check(j, t), ops, t, w)
    requires Follow(d, Check(j, t), step).Some?
    ensures Track(d, Follow(d, Check(j, t), step).value, ops + [step.op], NextToken(t, step), NextWindow(w, step))
  {
    hide Follow, ToChecks, Checked, OldAlone;
    CheckFacts(d, j, t, step);
    if step.op.reason == "" {
      CheckedMore(d, t, j);
      assert ToChecks(d, t) + Checked(d, t, j) + [step.op] == ToChecks(d, t) + (Checked(d, t, j) + [step.op]);
    } else {
      var done := CheckFailed(d, t, j, step.op.reason);
      assert done + [] == done;
      if !d.config.HasPreview() {
        assert Withdrawn(d) + Removed(d.news, 0) + Half(d.news, 0, false) == [];
        assert UndoneSofar(d, t, step.op.reason, ops + [step.op],
                           Withdrawn(d) + Removed(d.news, 0) + Half(d.news, 0, false));
      }
    }
  }

  lemma SwitchFacts(d: Deployment, p: Point, step: Step)
    requires d.strategy.BlueGreen? && (p.Cutover? || p.RecordCut? || p.Soak?) && Follow(d, p, step).Some?
    ensures p.Cutover? ==> step.op == Configure(CutUpstream(d))
    ensures p.RecordCut? ==> step.op == Op.Save(WeightState(d, CutWeight(d)))
    ensures p.Soak? ==> step.op == Pause(d.config.soak)
    ensures var q := Follow(d, p, step).value;
      q == Failed(p) || q == if p.Cutover? then RecordCut
                             else if p.Soak? then Promote else if d.config.watch then Window else Soak
  {
    hide CutUpstream, CutWeight, WeightState;
  }

  lemma SwitchTracks(d: Deployment, p: Point, ops: seq<Op>, t: string, w: Op, step: Step)
    requires d.strategy.BlueGreen? && (p.Cutover? || p.RecordCut? || p.Soak?)
    requires Track(d, p, ops, t, w) && Follow(d, p, step).Some?
    ensures Track(d, Follow(d, p, step).value, ops + [step.op], NextToken(t, step), NextWindow(w, step))
  {
    hide Follow, ToSwitch, SwitchOp, Opened, CutUpstream, WeightState, CutWeight, TokenFits;
    SwitchFacts(d, p, step);
    CutIsScript(d);
    assert ToSwitch(d, t) + [SwitchOp(d)] + [Opened(d, if d.config.watch then 100 else d.config.greenWeight)] ==
      Switched(d, t);
  }

  lemma PromotingIs(d: Deployment)
    ensures var all := Promoting(d, "");
      && all[..1] == [Configure(BackupUpstream(d, ""))]
      && all[..2] == all[..1] + [Pause(d.config.drain)]
      && all == all[..2] + [Configure(NewOnly(d, ""))]
  {
    hide BackupUpstream, NewOnly, Promoting;
    PromotionIsScript(d, "");
  }

  lemma PromoteTracks(d: Deployment, p: Point, ops: seq<Op>, t: string, w: Op, step: Step)
    requires d.strategy.BlueGreen? && (p.Promote? || p.PromoteDrain? || p.PromotePlain?) && |d.olds| > 0
    requires Track(d, p, ops, t, w) && Follow(d, p, step).Some?
    ensures Track(d, Follow(d, p, step).value, ops + [step.op], NextToken(t, step), NextWindow(w, step))
  {
    hide Follow, Switched, Promoting, BackupUpstream, NewOnly, SweepFrom, TokenFits;
    PromoteFacts(d, p, step);
    PromotingIs(d);
    NoPreviews(d, "");
    if p.PromotePlain? {
      PlainTracks(d, ops, t, w, step);
    }
  }

  lemma PlainTracks(d: Deployment, ops: seq<Op>, t: string, w: Op, step: Step)
    requires d.strategy.BlueGreen? && |d.olds| > 0 && Track(d, PromotePlain, ops, t, w)
    requires step.op == Configure(NewOnly(d, ""))
    ensures Track(d, SweepFrom(d, Retire, 0), ops + [step.op], t, w)
  {
    hide Switched, Promoting, NewOnly, SweepFrom;
    PromotingIs(d);
    var all := Promoting(d, "");
    assert Switched(d, t) + [Pause(d.config.soak)] + all[..2] + [step.op] ==
      Switched(d, t) + ([Pause(d.config.soak)] + all);
    SweepBegins(d, ops + [step.op], t, w);
  }

  lemma SweepBegins(d: Deployment, ops: seq<Op>, t: string, w: Op)
    requires |d.olds| > 0 && TokenFits(d, t) && (d.config.watch ==> w.Watch? && w.end.Clean?) && ops == Proven(d, t, w)
    ensures Track(d, SweepFrom(d, Retire, 0), ops, t, w)
  {
    hide Proven;
    assert ops + [] + [] == ops;
  }

  lemma WindowFacts(d: Deployment, step: Step)
    requires Follow(d, Window, step).Some?
    ensures step.op.Watch?
    ensures var q := Follow(d, Window, step).value;
      q == Failed(Window) || q == if step.op.end.Clean? then SweepFrom(d, Retire, 0) else Roll(step.op.reason)
  {
    hide SweepFrom;
  }

  lemma WindowTracks(d: Deployment, ops: seq<Op>, t: string, w: Op, step: Step)
    requires d.strategy.BlueGreen? && |d.olds| > 0 && Track(d, Window, ops, t, w) && Follow(d, Window, step).Some?
    ensures Track(d, Follow(d, Window, step).value, ops + [step.op], NextToken(t, step), NextWindow(w, step))
  {
    hide Follow, Switched, SweepFrom, Promoting;
    WindowFacts(d, step);
    if step.op.end.Clean? {
      SweepBegins(d, ops + [step.op], t, step.op);
    }
  }

  lemma SweepFacts(d: Deployment, why: Why, j: nat, removing: bool, step: Step)
    requires Follow(d, Sweep(why, j, removing), step).Some?
    ensures j < |Swept(d, why)|
    ensures var c := Swept(d, why)[j]; step.op == if removing then Op.Remove(c.id) else Op.Stop(c.id)
    ensures Follow(d, Sweep(why, j, removing), step).value ==
      if removing then SweepFrom(d, why, j + 1) else Sweep(why, j, true)
  {
    hide SweepFrom, Victims;
  }

  lemma HalfMore(cs: seq<Container>, j: nat, head: seq<Op>)
    requires j < |cs|
    ensures head + Removed(cs, j) + Half(cs, j, false) + [Op.Stop(cs[j].id)] ==
      head + Removed(cs, j) + Half(cs, j, true)
    ensures head + Removed(cs, j) + Half(cs, j, true) + [Op.Remove(cs[j].id)] ==
      head + Removed(cs, j + 1) + Half(cs, j + 1, false)
    ensures head + Removed(cs, j + 1) + Half(cs, j + 1, false) == head + Removed(cs, j + 1)
  {
    var stop, remove := Op.Stop(cs[j].id), Op.Remove(cs[j].id);
    assert Removed(cs, j + 1) == Removed(cs, j) + [stop, remove];
    assert head + Removed(cs, j) + [stop] + [remove] == head + (Removed(cs, j) + [stop, remove]);
  }

  lemma RetireTracks(d: Deployment, j: nat, removing: bool, ops: seq<Op>, t: string, w: Op, step: Step)
    requires d.strategy.BlueGreen? && Track(d, Sweep(Retire, j, removing), ops, t, w)
    requires Follow(d, Sweep(Retire, j, removing), step).Some?
    ensures Track(d, Follow(d, Sweep(Retire, j, removing), step).value, ops + [step.op], NextToken(t, step),
                  NextWindow(w, step))
  {
    hide Follow, Proven, Removed, Half;
    SweepFacts(d, Retire, j, removing, step);
    HalfMore(d.olds, j, Proven(d, t, w));
  }

  lemma GiveBackTracks(d: Deployment, reason: string, j: nat, removing: bool, ops: seq<Op>, t: string, w: Op,
                       step: Step)
    requires d.strategy.BlueGreen? && Track(d, Sweep(GiveBack(reason), j, removing), ops, t, w)
    requires Follow(d, Sweep(GiveBack(reason), j, removing), step).Some?
    ensures Track(d, Follow(d, Sweep(GiveBack(reason), j, removing), step).value, ops + [step.op], NextToken(t, step),
                  NextWindow(w, step))
  {
    hide Follow, Switched, Removed, Half, OldAlone;
    SweepFacts(d, GiveBack(reason), j, removing, step);
    HalfMore(d.news, j, Switched(d, t) + [w] + [OldAlone(d, ""), Pause(d.config.drain)]);
  }

  lemma UndoTracks(d: Deployment, reason: string, j: nat, removing: bool, ops: seq<Op>, t: string, w: Op, step: Step)
    requires d.strategy.BlueGreen? && Track(d, Sweep(Undo(reason), j, removing), ops, t, w)
    requires Follow(d, Sweep(Undo(reason), j, removing), step).Some?
    ensures Track(d, Follow(d, Sweep(Undo(reason), j, removing), step).value, ops + [step.op], NextToken(t, step),
                  NextWindow(w, step))
  {
    hide Follow, CheckFailed, Removed, Half, Withdrawn;
    SweepFacts(d, Undo(reason), j, removing, step);
    var more := Withdrawn(d) + Removed(d.news, j) + Half(d.news, j, removing);
    HalfMore(d.news, j, Withdrawn(d));
    OneMoreUndone(d, t, reason, ops, more, step.op);
  }

  lemma OneMoreUndone(d: Deployment, t: string, reason: string, ops: seq<Op>, more: seq<Op>, op: Op)
    requires UndoneSofar(d, t, reason, ops, more)
    ensures UndoneSofar(d, t, reason, ops + [op], more + [op])
  {
    hide CheckFailed;
    var j: nat :| j < |d.news| && ops == CheckFailed(d, t, j, reason) + more;
    assert ops + [op] == CheckFailed(d, t, j, reason) + (more + [op]);
  }

  lemma UndoFacts(d: Deployment, p: Point, step: Step)
    requires (p.Withdraw? || p.CloseUndo?) && Follow(d, p, step).Some?
    ensures step.op == if p.Withdraw? then Configure(OldOnly(d, d.config.affinity))
      else Op.Save(UndoneState(d, p.reason))
    ensures var q := Follow(d, p, step).value;
      q == Failed(p) || q == if p.Withdraw? then SweepFrom(d, Undo(p.reason), 0) else RolledBack(p.reason)
  {
    hide OldOnly, UndoneState, SweepFrom;
  }

  lemma CloseTracks(d: Deployment, p: Point, ops: seq<Op>, t: string, w: Op, step: Step)
    requires d.strategy.BlueGreen? && |d.news| > 0 && (p.Withdraw? || p.CloseUndo?)
    requires Track(d, p, ops, t, w) && Follow(d, p, step).Some?
    ensures Track(d, Follow(d, p, step).value, ops + [step.op], NextToken(t, step), NextWindow(w, step))
  {
    hide Follow, CheckFailed, OldOnly, UndoneState, OldAlone, TokenFits;
    UndoFacts(d, p, step);
    if p.Withdraw? {
      OldIsScript(d, d.config.affinity);
      OneMoreUndone(d, t, p.reason, ops, [], step.op);
      assert [] + [OldAlone(d, d.config.affinity)] == Withdrawn(d) + Removed(d.news, 0) + Half(d.news, 0, false);
    } else {
      hide Withdrawn, Removed;
      UndoStates(d, p.reason);
      var more := Withdrawn(d) + Removed(d.news, |d.news|);
      var j: nat :| j < |d.news| && ops == CheckFailed(d, t, j, p.reason) + more;
      assert ops + [step.op] == UndoneEarly(d, t, j, p.reason);
    }
  }

  lemma RollFacts(d: Deployment, p: Point, step: Step)
    requires d.hasProxy && (p.Roll? || p.RollDrain? || p.CloseRoll?) && Follow(d, p, step).Some?
    ensures p.Roll? ==> step.op == Configure(OldOnly(d, ""))
    ensures p.RollDrain? ==> step.op == Pause(d.config.drain)
    ensures p.CloseRoll? ==> step.op == Op.Save(SettledState(d, d.olds, p.reason))
    ensures var q := Follow(d, p, step).value;
      q == Failed(p) || q == if p.Roll? then RollDrain(p.reason)
                             else if p.RollDrain? then SweepFrom(d, GiveBack(p.reason), 0) else RolledBack(p.reason)
  {
    hide OldOnly, SettledState, SweepFrom;
  }

  lemma DrainTracks(d: Deployment, reason: string, ops: seq<Op>, t: string, w: Op)
    requires d.strategy.BlueGreen? && |d.news| > 0 && Track(d, RollDrain(reason), ops, t, w)
    ensures Track(d, SweepFrom(d, GiveBack(reason), 0), ops + [Pause(d.config.drain)], t, w)
  {
    hide Switched, OldAlone;
    var head := Switched(d, t) + [w] + [OldAlone(d, "")];
    assert head + [Pause(d.config.drain)] ==
      Switched(d, t) + [w] + [OldAlone(d, ""), Pause(d.config.drain)] + Removed(d.news, 0) + Half(d.news, 0, false);
  }

  lemma CloseRollTracks(d: Deployment, reason: string, ops: seq<Op>, t: string, w: Op)
    requires d.strategy.BlueGreen? && Track(d, CloseRoll(reason), ops, t, w)
    ensures Track(d, RolledBack(reason), ops + [Op.Save(SettledState(d, d.olds, reason))], t, w)
  {
    hide Switched, OldAlone, Removed, SettledState;
    UndoStates(d, reason);
  }

  lemma RollTracks(d: Deployment, p: Point, ops: seq<Op>, t: string, w: Op, step: Step)
    requires d.strategy.BlueGreen? && d.hasProxy && |d.news| > 0 && (p.Roll? || p.RollDrain? || p.CloseRoll?)
    requires Track(d, p, ops, t, w) && Follow(d, p, step).Some?
    ensures Track(d, Follow(d, p, step).value, ops + [step.op], NextToken(t, step), NextWindow(w, step))
  {
    hide Follow, Switched, OldOnly, SettledState, OldAlone, SweepFrom, TokenFits;
    RollFacts(d, p, step);
    if p.RollDrain? {
      DrainTracks(d, p.reason, ops, t, w);
    } else if p.CloseRoll? {
      CloseRollTracks(d, p.reason, ops, t, w);
    } else {
      OldIsScript(d, "");
    }
  }

  lemma FinishTracks(d: Deployment, ops: seq<Op>, t: string, w: Op, step: Step)
    requires d.strategy.BlueGreen? && Track(d, Finish, ops, t, w) && Follow(d, Finish, step).Some?
    ensures Track(d, Follow(d, Finish, step).value, ops + [step.op], NextToken(t, step), NextWindow(w, step))
  {
    hide Follow, Proven, Removed, FinishedState, Closed, TokenFits;
    PromoteFacts(d, Finish, step);
    AloneIsScript(d, "");
  }

  lemma SweepTracks(d: Deployment, p: Point, ops: seq<Op>, t: string, w: Op, step: Step)
    requires d.strategy.BlueGreen? && p.Sweep? && Track(d, p, ops, t, w) && Follow(d, p, step).Some?
    ensures Track(d, Follow(d, p, step).value, ops + [step.op], NextToken(t, step), NextWindow(w, step))
  {
    hide Follow, Proven, Removed, Half, Switched, UndoneSofar;
    match p.why
    case Retire => RetireTracks(d, p.j, p.removing, ops, t, w, step);
    case Undo(reason) => UndoTracks(d, reason, p.j, p.removing, ops, t, w, step);
    case GiveBack(reason) => GiveBackTracks(d, reason, p.j, p.removing, ops, t, w, step);
    case Discard(_) =>
  }

  lemma TrackStep(d: Deployment, p: Point, ops: seq<Op>, t: string, w: Op, step: Step)
    requires d.strategy.BlueGreen? && d.hasProxy && |d.news| > 0 && |d.olds| > 0
    requires Track(d, p, ops, t, w) && Follow(d, p, step).Some?
    ensures Track(d, Follow(d, p, step).value, ops + [step.op], NextToken(t, step), NextWindow(w, step))
  {
    hide Follow, Track, NextToken, NextWindow;
    EndedStays(d, p, step);
    OnTrack(d, p, ops, t, w);
    if p.Start? || p.Healthy? {
      RiseTracks(d, p, ops, w, step);
    } else if p.Token? || p.Publish? {
      PreviewTracks(d, p, ops, t, w, step);
    } else if p.Check? {
      CheckTracks(d, p.j, ops, t, w, step);
    } else if p.Cutover? || p.RecordCut? || p.Soak? {
      SwitchTracks(d, p, ops, t, w, step);
    } else if p.Promote? || p.PromoteDrain? || p.PromotePlain? {
      PromoteTracks(d, p, ops, t, w, step);
    } else if p.Window? {
      WindowTracks(d, ops, t, w, step);
    } else if p.Sweep? {
      SweepTracks(d, p, ops, t, w, step);
    } else if p.Withdraw? || p.CloseUndo? {
      CloseTracks(d, p, ops, t, w, step);
    } else if p.Finish? {
      FinishTracks(d, ops, t, w, step);
    } else {
      RollTracks(d, p, ops, t, w, step);
    }
  }

  lemma OnTrack(d: Deployment, p: Point, ops: seq<Op>, t: string, w: Op)
    requires Track(d, p, ops, t, w)
    ensures p.Check? ==> p.token == t
    ensures p.Start? || p.Healthy? ==> t == ""
    ensures || p.Start? || p.Healthy? || p.Token? || p.Publish? || p.Check? || p.Cutover? || p.RecordCut? || p.Soak?
            || p.Promote? || p.PromoteDrain? || p.PromotePlain? || p.Window? || p.Sweep? || p.Withdraw? || p.CloseUndo?
            || p.Roll? || p.RollDrain? || p.CloseRoll? || p.Finish? || Ended(p)
  {
  }

  lemma {:induction false} RunTracks(d: Deployment, log: Log)
    requires d.strategy.BlueGreen? && WellFormed(d) && Path(d, Start, log).Some?
    ensures Track(d, Path(d, Start, log).value, Ops(log), PublishedToken(log), LastWindow(log))
  {
    hide Follow, Track, WellFormed;
    assert d.hasProxy && |d.news| > 0 && |d.olds| > 0 by { Both(d); }
    if log.Then? {
      RunTracks(d, log.before);
      TrackStep(d, Path(d, Start, log.before).value, Ops(log.before), PublishedToken(log.before),
                LastWindow(log.before), log.last);
    } else {
      TrackBegins(d);
    }
  }

  lemma TrackBegins(d: Deployment)
    ensures Track(d, Start, [], "", NoConfig)
  {
  }

  /** Whatever fails, a blue-green run that completes has done what its list says, and one
      that is undone what one of the other two says: undone early, for a check that failed,
      it never moved users, and undone late it moved them there and back. The token is the
      one the settings ask for. */
  lemma BlueGreenFollowsScript(d: Deployment, log: Log)
    requires d.strategy.BlueGreen? && WellFormed(d) && Path(d, Start, log).Some?
    ensures var p, t, w := Path(d, Start, log).value, PublishedToken(log), LastWindow(log);
      && (p.Done? ==>
            && TokenFits(d, t) && (d.config.watch ==> w.Watch? && w.end.Clean?)
            && Ops(log) == Completed(d, t, w))
      && (p.RolledBack? ==>
            && TokenFits(d, t)
            && (|| (p.reason != "" && exists j: nat :: j < |d.news| && Ops(log) == UndoneEarly(d, t, j, p.reason))
                || (&& d.config.watch && w.Watch? && !w.end.Clean? && w.reason == p.reason
                    && Ops(log) == UndoneLate(d, t, w, p.reason))))
  {
    hide Path, Ops, TokenFits, Completed, UndoneEarly, UndoneLate, WellFormed;
    RunTracks(d, log);
  }
}
