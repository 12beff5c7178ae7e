/** The control flow of a release: which effect comes at which point, and which
    point follows. Every strategy, the rollback and the abort are paths through
    it, so a theorem about all its runs is a theorem about all of them. */
module Machine {
  import opened Requests
  import opened Rollout

  /** The parts of one linear replacement, in order. */
  datatype Phase = Health | Route | DrainOld | StopOld | RemoveOld | Record

  /** Why containers are being removed, which decides which ones. */
  datatype Why =
    | Retire
    | Undo(reason: string)
    | GiveBack(reason: string)
    | Discard(targets: seq<Container>)

  datatype Point =
    | Start
    // linear
    | Swap(i: nat, phase: Phase)
    | Extra(j: nat)
    | Settle
    | SettlePlain
    // blue-green and canary
    | Healthy(j: nat)
    | Token
    | Publish(token: string)
    | Check(j: nat, token: string)
    | Withdraw(reason: string)
    | CloseUndo(reason: string)
    | Cutover
    | RecordCut
    | Window
    | Soak
    | Shift(weight: int)
    | RecordShift(weight: int)
    | Observe(weight: int)
    | Promote
    | PromoteDrain
    | PromotePlain
    | Sweep(why: Why, j: nat, removing: bool)
    | Finish
    // going back to the old containers
    | MarkRolling(state: DeploymentState)
    | Roll(reason: string)
    | RollDrain(reason: string)
    | CloseRoll(reason: string)
    // abort
    | Abort(targets: seq<Container>)
    | AbortDrain(targets: seq<Container>)
    | CloseAbort(targets: seq<Container>)
    // ends
    | Done
    | RolledBack(reason: string)
    | Aborted(targets: seq<Container>)
    | Failed(at: Point)

  // ------------------------------------------------------------ saved states

  function FreshState(d: Deployment): DeploymentState {
    DeploymentState(d.service, InProgress, d.strategy.Tag(), 0, Ids(d.olds),
                    if d.strategy.Linear? then [] else Ids(d.news), "", "", "")
  }

  /** The stable list after `k` recorded replacements. */
  function SwapStable(d: Deployment, k: nat): seq<string>
    requires k <= d.Replacements()
  {
    Ids(d.news[..k]) + (if k < d.Replacements() || k == 0 then Ids(d.olds[k..]) else [])
  }

  function SwapState(d: Deployment, k: nat): DeploymentState
    requires k <= d.Replacements()
  {
    FreshState(d).(stable := SwapStable(d, k))
  }

  function FinishedState(d: Deployment): DeploymentState {
    FreshState(d).(status := Idle, stable := Ids(d.news), canary := [], weight := if d.strategy.Linear? then 0 else 100)
  }

  function WeightState(d: Deployment, weight: int): DeploymentState {
    FreshState(d).(weight := weight)
  }

  function CutWeight(d: Deployment): int {
    if d.config.watch then 100 else d.config.greenWeight
  }

  function TokenState(d: Deployment, token: string): DeploymentState {
    FreshState(d).(token := token, previewURL := d.config.previewBase)
  }

  function UndoneState(d: Deployment, reason: string): DeploymentState {
    FreshState(d).(status := Idle, canary := [], failure := reason)
  }

  /** An idle state that names `stable`, as a rollback or an abort writes it. */
  function SettledState(d: Deployment, stable: seq<Container>, reason: string): DeploymentState {
    DeploymentState(d.service, Idle, d.strategy.Tag(), 0, Ids(stable), [], reason, "", "")
  }

  // ------------------------------------------------------------ control flow

  /** The new containers that are not among the abort targets. */
  function Victims(news: seq<Container>, targets: seq<Container>): (vs: seq<Container>)
    ensures forall v :: v in vs <==> v in news && v.id !in Ids(targets)
  {
    if news == [] then []
    else
      var rest := Victims(news[1..], targets);
      if news[0].id in Ids(targets) then rest else [news[0]] + rest
  }

  function Swept(d: Deployment, why: Why): seq<Container> {
    match why
    case Retire => d.olds
    case Undo(_) => d.news
    case GiveBack(_) => d.news
    case Discard(targets) => Victims(d.news, targets)
  }

  function AfterSweep(why: Why): Point {
    match why
    case Retire => Finish
    case Undo(reason) => CloseUndo(reason)
    case GiveBack(reason) => CloseRoll(reason)
    case Discard(targets) => CloseAbort(targets)
  }

  function SweepFrom(d: Deployment, why: Why, j: nat): Point {
    if j < |Swept(d, why)| then Sweep(why, j, false) else AfterSweep(why)
  }

  function SwapFrom(d: Deployment, i: nat): Point {
    if i < d.Replacements() then Swap(i, Health) else ExtraFrom(d, |d.olds|)
  }

  function ExtraFrom(d: Deployment, j: nat): Point {
    if j < |d.news| then Extra(j) else Settle
  }

  function HealthyFrom(d: Deployment, j: nat): Point {
    if j < |d.news| then Healthy(j)
    else if d.strategy.Canary? then ShiftFrom(d, d.config.canaryStart)
    else if d.config.HasPreview() then
      if d.config.previewToken == "" then Publish("") else Token
    else CheckFrom(d, 0, "")
  }

  function CheckFrom(d: Deployment, j: nat, token: string): Point {
    if d.config.checkCommand != "" && j < |d.news| then Check(j, token) else Cutover
  }

  function UndoFrom(d: Deployment, reason: string): Point {
    if d.config.HasPreview() then Withdraw(reason) else SweepFrom(d, Undo(reason), 0)
  }

  function ShiftFrom(d: Deployment, weight: int): Point {
    if weight < 100 then Shift(weight) else Promote
  }

  function DrainAffinity(d: Deployment): string {
    if d.strategy.Canary? then d.config.affinity else ""
  }

  function CutUpstream(d: Deployment): Upstream {
    if d.config.watch then NewOnly(d, d.config.affinity) else SplitUpstream(d, d.config.greenWeight)
  }

  predicate LiveToken(config: Settings, token: string) {
    token != "" && (config.previewToken == "auto" || config.previewToken == token)
  }

  predicate OnLinear(p: Point) { p.Swap? || p.Extra? || p.Settle? || p.SettlePlain? }
  predicate OnBlueGreen(p: Point) {
    p.Token? || p.Publish? || p.Check? || p.Withdraw? || p.CloseUndo? || p.Cutover? || p.RecordCut? || p.Window? ||
      p.Soak?
  }
  predicate OnCanary(p: Point) { p.Shift? || p.RecordShift? || p.Observe? }
  predicate OnPromote(p: Point) { p.Healthy? || p.Promote? || p.PromoteDrain? || p.PromotePlain? }
  predicate OnBack(p: Point) {
    p.MarkRolling? || p.Roll? || p.RollDrain? || p.CloseRoll? || p.Abort? || p.AbortDrain? || p.CloseAbort?
  }

  /** The points of a rollback or an abort, from its first effect to its end. */
  predicate GoingBack(p: Point)
    decreases p
  {
    if p.Failed? then GoingBack(p.at)
    else OnBack(p) || p.RolledBack? || p.Aborted? || (p.Sweep? && (p.why.GiveBack? || p.why.Discard?))
  }

  predicate Ended(p: Point) {
    p.Done? || p.RolledBack? || p.Aborted? || p.Failed?
  }

  predicate AllowedLinear(d: Deployment, p: Point, step: Step)
    requires OnLinear(p)
  {
    match p
    case Swap(i, phase) =>
      i < d.Replacements() &&
      (match phase
       case Health => step.op == WaitHealthy(d.news[i].id)
       case Route => step.op == Configure(StepUpstream(d, i))
       case DrainOld => step.op == Pause(d.config.drain)
       case StopOld => step.op == Stop(d.olds[i].id)
       case RemoveOld => step.op == Remove(d.olds[i].id)
       case Record => step.op == Save(SwapState(d, i + 1)))
    case Extra(j) => j < |d.news| && step.op == WaitHealthy(d.news[j].id)
    case Settle => step.op == Configure(NewOnly(d, d.config.affinity))
    case SettlePlain => step.op == Configure(NewOnly(d, ""))
  }

  predicate AllowedBlueGreen(d: Deployment, p: Point, step: Step)
    requires OnBlueGreen(p)
  {
    match p
    case Token => step.op.Save? && LiveToken(d.config, step.op.state.token) &&
      step.op.state == TokenState(d, step.op.state.token)
    case Publish(token) => step.op == Configure(PreviewUpstream(d, token))
    case Check(j, token) =>
      && j < |d.news|
      && step.op.RunCheck? && step.op.id == d.news[j].id && step.op.token == token
      && step.ok == (step.op.reason == "")
    case Withdraw(_) => step.op == Configure(OldOnly(d, d.config.affinity))
    case CloseUndo(reason) => step.op == Save(UndoneState(d, reason))
    case Cutover => step.op == Configure(CutUpstream(d))
    case RecordCut => step.op == Save(WeightState(d, CutWeight(d)))
    case Window =>
      && step.op.Watch?
      && (step.ok && step.op.end.TooManyErrors? ==> Errors(d, step.op.delivered) > d.config.rules.maxErrors)
    case Soak => step.op == Pause(d.config.soak)
  }

  predicate AllowedBack(d: Deployment, p: Point, step: Step)
    requires OnBack(p)
  {
    match p
    case MarkRolling(ds) => step.op == Save(ds.(status := RollingBack))
    case Roll(_) => if d.hasProxy then step.op == Configure(OldOnly(d, "")) else step == Step(NoConfig, true)
    case RollDrain(_) => step.op == Pause(d.config.drain)
    case CloseRoll(reason) => step.op == Save(SettledState(d, d.olds, reason))
    case Abort(targets) => step.op == Configure(TargetUpstream(d, targets))
    case AbortDrain(_) => step.op == Pause(d.config.drain)
    case CloseAbort(targets) => step.op == Save(SettledState(d, targets, ""))
  }

  /** Whether a step can come at a point; none can once the run has ended. */
  predicate Allowed(d: Deployment, p: Point, step: Step) {
    if Ended(p) then false
    else if OnLinear(p) then AllowedLinear(d, p, step)
    else if OnBlueGreen(p) then AllowedBlueGreen(d, p, step)
    else if OnBack(p) then AllowedBack(d, p, step)
    else
      match p
      case Start => step.op == Save(FreshState(d))
      case Healthy(j) => j < |d.news| && step.op == WaitHealthy(d.news[j].id)
      case Shift(w) => step.op == Configure(SplitUpstream(d, w))
      case RecordShift(w) => step.op == Save(WeightState(d, w))
      case Observe(_) => step.op == Pause(d.config.interval)
      case Promote => step.op == Configure(BackupUpstream(d, DrainAffinity(d)))
      case PromoteDrain => step.op == Pause(d.config.drain)
      case PromotePlain => step.op == Configure(NewOnly(d, ""))
      case Sweep(why, j, removing) =>
        && j < |Swept(d, why)|
        && step.op == (if removing then Remove(Swept(d, why)[j].id) else Stop(Swept(d, why)[j].id))
      case Finish => step.op == Save(FinishedState(d))
  }

  /** Whether a run ends when the effect at this point fails. */
  predicate Must(p: Point) {
    && !(p.Swap? && (p.phase.StopOld? || p.phase.RemoveOld?))
    && !p.Check? && !p.Withdraw? && !p.Sweep?
  }

  function NextLinear(d: Deployment, p: Point): (q: Point)
    requires OnLinear(p)
    ensures !q.Failed? && !q.Start?
  {
    match p
    case Swap(i, phase) =>
      (match phase
       case Health => Swap(i, Route)
       case Route => Swap(i, DrainOld)
       case DrainOld => Swap(i, StopOld)
       case StopOld => Swap(i, RemoveOld)
       case RemoveOld => Swap(i, Record)
       case Record => SwapFrom(d, i + 1))
    case Extra(j) => ExtraFrom(d, j + 1)
    case Settle => SettlePlain
    case SettlePlain => Finish
  }

  function NextBlueGreen(d: Deployment, p: Point, step: Step): (q: Point)
    requires OnBlueGreen(p) && AllowedBlueGreen(d, p, step)
    ensures !q.Failed? && !q.Start?
  {
    match p
    case Token => Publish(step.op.state.token)
    case Publish(token) => CheckFrom(d, 0, token)
    case Check(j, token) => if step.ok then CheckFrom(d, j + 1, token) else UndoFrom(d, step.op.reason)
    case Withdraw(reason) => SweepFrom(d, Undo(reason), 0)
    case CloseUndo(reason) => RolledBack(reason)
    case Cutover => RecordCut
    case RecordCut => if d.config.watch then Window else Soak
    case Window => if step.op.end.Clean? then SweepFrom(d, Retire, 0) else Roll(step.op.reason)
    case Soak => Promote
  }

  function NextBack(d: Deployment, p: Point): (q: Point)
    requires OnBack(p)
    ensures !q.Failed? && !q.Start?
  {
    match p
    case MarkRolling(_) => Roll("")
    case Roll(reason) => RollDrain(reason)
    case RollDrain(reason) => SweepFrom(d, GiveBack(reason), 0)
    case CloseRoll(reason) => RolledBack(reason)
    case Abort(targets) => AbortDrain(targets)
    case AbortDrain(targets) => SweepFrom(d, Discard(targets), 0)
    case CloseAbort(targets) => Aborted(targets)
  }

  /** The point after a step. A run fails only at the point whose effect failed,
      and never comes back to its start. */
  function Next(d: Deployment, p: Point, step: Step): (q: Point)
    requires Allowed(d, p, step)
    ensures q.Failed? ==> q == Failed(p) && !step.ok
    ensures !q.Start?
  {
    if Must(p) && !step.ok then Failed(p)
    else if OnLinear(p) then NextLinear(d, p)
    else if OnBlueGreen(p) then NextBlueGreen(d, p, step)
    else if OnBack(p) then NextBack(d, p)
    else
      match p
      case Start => if d.strategy.Linear? then SwapFrom(d, 0) else HealthyFrom(d, 0)
      case Healthy(j) => HealthyFrom(d, j + 1)
      case Shift(w) => RecordShift(w)
      case RecordShift(w) => Observe(w)
      case Observe(w) => ShiftFrom(d, w + d.config.canaryStep)
      case Promote => PromoteDrain
      case PromoteDrain => PromotePlain
      case PromotePlain => SweepFrom(d, Retire, 0)
      case Sweep(why, j, removing) => if removing then SweepFrom(d, why, j + 1) else Sweep(why, j, true)
      case Finish => Done
  }

  /** How many delivered requests count as errors of the new containers. */
  function Errors(d: Deployment, delivered: seq<Entry>): nat {
    CountErrors(d.config.rules, set c | c in d.news :: c.addr, delivered)
  }

  /** Where a step at a point leads, if it can come there. */
  function Follow(d: Deployment, p: Point, step: Step): Option<Point> {
    if Allowed(d, p, step) then Some(Next(d, p, step)) else None
  }

  /** Where a run that began at `entry` and had these effects is now, or nothing
      when the control flow cannot produce them. */
  function Path(d: Deployment, entry: Point, log: Log): Option<Point> {
    match log
    case Empty => Some(entry)
    case Then(before, last) =>
      var p := Path(d, entry, before);
      if p.Some? then Follow(d, p.value, last) else None
  }

  /** A run that has not come to its end, or that an effect ended. */
  predicate Short(at: Option<Point>) {
    at.Some? && (at.value.Failed? || !Ended(at.value))
  }

  lemma Begin(d: Deployment, entry: Point)
    ensures Path(d, entry, Empty) == Some(entry)
  {
  }

  /** One more effect takes a run one point further. */
  lemma Go(d: Deployment, entry: Point, log: Log, p: Point, q: Point)
    requires log.Then? && Path(d, entry, log.before) == Some(p) && Follow(d, p, log.last) == Some(q)
    ensures Path(d, entry, log) == Some(q)
  {
  }

  /** The effect that comes at a point, and where it leads when it takes; when it
      does not, the run ends there. */
  ghost predicate Edge(d: Deployment, p: Point, op: Op, q: Point) {
    forall ok :: Follow(d, p, Step(op, ok)) == Some(if ok then q else Failed(p))
  }

  /** The effect that comes at a point, and where it leads whether it takes or not. */
  ghost predicate LooseEdge(d: Deployment, p: Point, op: Op, q: Point) {
    forall ok :: Follow(d, p, Step(op, ok)) == Some(q)
  }

  lemma Unfinished(p: Point)
    requires !Ended(p)
    ensures Short(Some(p))
  {
  }

  lemma EndedBy(p: Point)
    ensures Short(Some(Failed(p)))
  {
  }

  /** An effect that does not take ends the run. */
  lemma EndsThere(d: Deployment, entry: Point, log: Log, p: Point, q: Point)
    requires log.Then? && Path(d, entry, log.before) == Some(p) && Edge(d, p, log.last.op, q)
    requires !log.last.ok
    ensures Path(d, entry, log) == Some(Failed(p))
  {
    hide Follow;
    assert log.last == Step(log.last.op, log.last.ok);
  }

  /** One more effect takes a run along an edge, or ends it. */
  lemma Along(d: Deployment, entry: Point, log: Log, p: Point, q: Point)
    requires log.Then? && Path(d, entry, log.before) == Some(p) && Edge(d, p, log.last.op, q)
    ensures Path(d, entry, log) == Some(if log.last.ok then q else Failed(p))
    ensures !log.last.ok ==> Short(Path(d, entry, log))
  {
    hide Follow;
    if !log.last.ok {
      EndsThere(d, entry, log, p, q);
    }
    assert log.last == Step(log.last.op, log.last.ok);
  }

  /** One more effect that need not take takes a run along an edge. */
  lemma Despite(d: Deployment, entry: Point, log: Log, p: Point, q: Point)
    requires log.Then? && Path(d, entry, log.before) == Some(p) && LooseEdge(d, p, log.last.op, q)
    ensures Path(d, entry, log) == Some(q)
  {
    hide Follow;
    assert log.last == Step(log.last.op, log.last.ok);
  }

  // The edges, one lemma for each stretch of the control flow: which effect is
  // next at a point, and where it leads.

  lemma SwapEdges(d: Deployment, i: nat)
    requires i < d.Replacements()
    ensures Edge(d, Swap(i, Health), WaitHealthy(d.news[i].id), Swap(i, Route))
    ensures Edge(d, Swap(i, Route), Configure(StepUpstream(d, i)), Swap(i, DrainOld))
    ensures Edge(d, Swap(i, DrainOld), Pause(d.config.drain), Swap(i, StopOld))
    ensures LooseEdge(d, Swap(i, StopOld), Stop(d.olds[i].id), Swap(i, RemoveOld))
    ensures LooseEdge(d, Swap(i, RemoveOld), Remove(d.olds[i].id), Swap(i, Record))
  {
    hide StepUpstream, WellFormed;
  }

  lemma RecordEdge(d: Deployment, i: nat)
    requires i < d.Replacements()
    ensures Edge(d, Swap(i, Record), Save(SwapState(d, i + 1)), SwapFrom(d, i + 1))
  {
    hide SwapState, StepUpstream;
  }

  lemma LinearEdges(d: Deployment)
    requires d.strategy.Linear?
    ensures Edge(d, Start, Save(FreshState(d)), SwapFrom(d, 0))
    ensures Edge(d, Settle, Configure(NewOnly(d, d.config.affinity)), SettlePlain)
    ensures Edge(d, SettlePlain, Configure(NewOnly(d, "")), Finish)
    ensures Edge(d, Finish, Save(FinishedState(d)), Done)
  {
    hide NewOnly, FreshState, FinishedState;
  }

  lemma ExtraEdge(d: Deployment, j: nat)
    requires j < |d.news|
    ensures Edge(d, Extra(j), WaitHealthy(d.news[j].id), ExtraFrom(d, j + 1))
  {
    hide NewOnly;
  }

  lemma HealthyEdge(d: Deployment, j: nat)
    requires j < |d.news|
    ensures Edge(d, Healthy(j), WaitHealthy(d.news[j].id), HealthyFrom(d, j + 1))
  {
    hide CutUpstream, PreviewUpstream;
  }

  lemma SweepEdges(d: Deployment, why: Why, j: nat)
    requires j < |Swept(d, why)|
    ensures LooseEdge(d, Sweep(why, j, false), Stop(Swept(d, why)[j].id), Sweep(why, j, true))
    ensures LooseEdge(d, Sweep(why, j, true), Remove(Swept(d, why)[j].id), SweepFrom(d, why, j + 1))
  {
    hide Victims;
  }

  lemma PromoteEdges(d: Deployment)
    ensures Edge(d, Promote, Configure(BackupUpstream(d, DrainAffinity(d))), PromoteDrain)
    ensures Edge(d, PromoteDrain, Pause(d.config.drain), PromotePlain)
    ensures Edge(d, PromotePlain, Configure(NewOnly(d, "")), SweepFrom(d, Retire, 0))
  {
    hide BackupUpstream, NewOnly, DrainAffinity;
  }

  lemma StartEdges(d: Deployment)
    requires !d.strategy.Linear?
    ensures Edge(d, Start, Save(FreshState(d)), HealthyFrom(d, 0))
    ensures Edge(d, Finish, Save(FinishedState(d)), Done)
  {
    hide FreshState, FinishedState, HealthyFrom, NewOnly;
  }

  lemma ShiftEdges(d: Deployment, weight: int)
    ensures Edge(d, Shift(weight), Configure(SplitUpstream(d, weight)), RecordShift(weight))
    ensures Edge(d, RecordShift(weight), Save(WeightState(d, weight)), Observe(weight))
    ensures Edge(d, Observe(weight), Pause(d.config.interval), ShiftFrom(d, weight + d.config.canaryStep))
  {
    hide SplitUpstream, WeightState, ShiftFrom;
  }

  lemma PreviewEdges(d: Deployment, token: string)
    ensures LiveToken(d.config, token) ==>
      Edge(d, Token, Save(TokenState(d, token)), Publish(token))
    ensures Edge(d, Publish(token), Configure(PreviewUpstream(d, token)), CheckFrom(d, 0, token))
  {
  }

  lemma CheckEdge(d: Deployment, j: nat, token: string, reason: string)
    requires j < |d.news|
    ensures Follow(d, Check(j, token), Step(RunCheck(d.news[j].id, token, reason), reason == ""))
         == Some(if reason == "" then CheckFrom(d, j + 1, token) else UndoFrom(d, reason))
  {
  }

  lemma UndoEdges(d: Deployment, reason: string)
    ensures LooseEdge(d, Withdraw(reason), Configure(OldOnly(d, d.config.affinity)), SweepFrom(d, Undo(reason), 0))
    ensures Edge(d, CloseUndo(reason), Save(UndoneState(d, reason)), RolledBack(reason))
  {
    hide OldOnly, UndoneState, Victims;
  }

  lemma CutEdges(d: Deployment)
    ensures Edge(d, Cutover, Configure(CutUpstream(d)), RecordCut)
    ensures Edge(d, RecordCut, Save(WeightState(d, CutWeight(d))), if d.config.watch then Window else Soak)
    ensures Edge(d, Soak, Pause(d.config.soak), Promote)
  {
    hide CutUpstream, WeightState, CutWeight;
  }

  lemma WindowEdge(d: Deployment, delivered: seq<Entry>, end: WindowEnd, reason: string, ok: bool)
    requires ok && end.TooManyErrors? ==> Errors(d, delivered) > d.config.rules.maxErrors
    ensures Follow(d, Window, Step(Watch(delivered, end, reason), ok))
         == Some(if !ok then Failed(Window) else if end.Clean? then SweepFrom(d, Retire, 0) else Roll(reason))
  {
  }

  lemma RollEdges(d: Deployment, reason: string)
    ensures d.hasProxy ==> Edge(d, Roll(reason), Configure(OldOnly(d, "")), RollDrain(reason))
    ensures !d.hasProxy ==> Follow(d, Roll(reason), Step(NoConfig, true)) == Some(RollDrain(reason))
    ensures Edge(d, RollDrain(reason), Pause(d.config.drain), SweepFrom(d, GiveBack(reason), 0))
    ensures Edge(d, CloseRoll(reason), Save(SettledState(d, d.olds, reason)), RolledBack(reason))
  {
    hide OldOnly, SettledState, Victims;
  }

  lemma MarkEdge(d: Deployment, ds: DeploymentState)
    ensures Edge(d, MarkRolling(ds), Save(ds.(status := RollingBack)), Roll(""))
  {
  }

  lemma AbortEdges(d: Deployment, targets: seq<Container>)
    ensures Edge(d, Abort(targets), Configure(TargetUpstream(d, targets)), AbortDrain(targets))
    ensures Edge(d, AbortDrain(targets), Pause(d.config.drain), SweepFrom(d, Discard(targets), 0))
    ensures Edge(d, CloseAbort(targets), Save(SettledState(d, targets, "")), Aborted(targets))
  {
    hide TargetUpstream, SettledState, Victims;
  }
}
