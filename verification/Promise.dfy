/** What no run of a release may do, and what holds at each of its points. */
module Promise {
  import opened Rollout
  import opened Machine
  import opened Restart

  // --------------------------------------------------------- what is promised

  predicate Mine(d: Deployment, c: Container) {
    c in d.olds || c in d.news
  }

  /** An old container, or a new one that passed its health check. */
  predicate Proven(d: Deployment, s: World, c: Container) {
    Mine(d, c) && (c in d.olds || c.id in s.healthy)
  }

  /** A container that may get traffic: a proven one that runs. */
  predicate Trusted(d: Deployment, s: World, c: Container) {
    Proven(d, s, c) && s.Usable(c)
  }

  /** A proven container that is still there, though it may have been stopped. */
  predicate Fit(d: Deployment, s: World, c: Container) {
    Proven(d, s, c) && c.id in s.existing
  }

  /** Some server takes traffic, and each that does is a trusted container. */
  ghost predicate Serves(d: Deployment, s: World, u: Upstream) {
    && Live(u.servers) != []
    && forall a :: a in Live(u.servers) ==> exists c :: Trusted(d, s, c) && c.addr == a
  }

  /** Some server takes traffic, and each that does is a proven container, though
      it may have been stopped. */
  ghost predicate ServesProven(d: Deployment, s: World, u: Upstream) {
    && Live(u.servers) != []
    && forall a :: a in Live(u.servers) ==> exists c :: Proven(d, s, c) && c.addr == a
  }

  /** `ids` names exactly the containers that take traffic, in order. */
  ghost predicate Names(d: Deployment, ids: seq<string>, u: Upstream) {
    exists cs: seq<Container> :: (forall c :: c in cs ==> Mine(d, c)) && ids == Ids(cs) && Live(u.servers) == Addrs(cs)
  }

  /** The book that resolves every container of the release. */
  ghost predicate Resolves(d: Deployment, book: map<string, string>) {
    Knows(book, d.olds) && Knows(book, d.news)
  }

  /** What a saved state says agrees with what the proxy serves. */
  ghost predicate SaveAgrees(d: Deployment, ds: DeploymentState, u: Upstream) {
    && (ds.status == Idle ==> ds.canary == [] && ds.token == "" && Names(d, ds.stable, u))
    && (d.strategy.Linear? && |d.olds| <= |d.news| ==> Names(d, ds.stable, u))
    && (!d.strategy.Linear? && ds.status == InProgress && 1 <= ds.weight <= 99 ==>
          forall book :: Resolves(d, book) ==>
            && RestartUpstream(d.service, d.config, ds, book).Some?
            && Resolved(RestartUpstream(d.service, d.config, ds, book).value) == Resolved(u))
    && (!d.strategy.Linear? && ds.status == InProgress && ds.weight == 100 && d.config.watch ==>
          forall book :: Resolves(d, book) ==>
            && RestartUpstream(d.service, d.config, ds, book).Some?
            && RestartUpstream(d.service, d.config, ds, book).value.servers == Weighted(d.news, 100, "canary")
            && u.servers == Plain(d.news))
  }

  /** A container that takes no traffic and, if the release drains, holds no request
      of it any more. */
  ghost predicate Idles(d: Deployment, s: World, c: Container) {
    c.addr !in Live(s.accepted.servers) && (d.Drains() ==> c.addr !in s.busy)
  }

  /** The promise about one step from one world. */
  ghost predicate StepSafe(d: Deployment, s: World, step: Step) {
    match step.op
    case Configure(u) => step.ok ==> Serves(d, s, u)
    case Stop(id) => forall c :: Mine(d, c) && c.id == id ==> Idles(d, s, c)
    case Remove(id) => forall c :: Mine(d, c) && c.id == id ==> Idles(d, s, c)
    case Save(ds) => step.ok ==> SaveAgrees(d, ds, s.accepted)
    case _ => true
  }

  ghost predicate EveryStepSafe(d: Deployment, start: World, log: Log) {
    match log
    case Empty => true
    case Then(before, last) => EveryStepSafe(d, start, before) && StepSafe(d, Replay(start, before), last)
  }

  /** The promise about one step that is left when a container to go back to may
      have been stopped: all of it, but for whether the servers of a config run. */
  ghost predicate StepFits(d: Deployment, s: World, step: Step) {
    if step.op.Configure? then step.ok ==> ServesProven(d, s, step.op.upstream) else StepSafe(d, s, step)
  }

  ghost predicate EveryStepFits(d: Deployment, start: World, log: Log) {
    match log
    case Empty => true
    case Then(before, last) => EveryStepFits(d, start, before) && StepFits(d, Replay(start, before), last)
  }

  // ------------------------------------------------------------- the invariant

  /** The ids a saved state lists while the run goes on. */
  datatype Listing = Listing(stable: seq<string>, canary: seq<string>)

  function OwnListing(d: Deployment): Listing {
    Listing(Ids(d.olds), Ids(d.news))
  }

  /** The proxy serves `routed`; if the release drains, only those and `lingering` can
      hold requests; everything but `gone` still runs; `proven` passed their health checks. */
  ghost predicate Facts(d: Deployment, s: World, routed: seq<Container>, lingering: seq<Container>,
                        gone: seq<Container>, proven: seq<Container>) {
    && Live(s.accepted.servers) == Addrs(routed)
    && (d.Drains() ==> forall a :: a in s.busy ==> a in Addrs(routed) || a in Addrs(lingering))
    && (forall c :: Mine(d, c) && c !in gone ==> s.Usable(c))
    && (forall c :: c in proven ==> c.id in s.healthy)
  }

  ghost predicate Open(s: World, l: Listing) {
    s.saved.status != Idle && s.saved.stable == l.stable && s.saved.canary == l.canary
  }

  ghost predicate Mid(d: Deployment, s: World, l: Listing) {
    s.saved.status == InProgress && Open(s, l) && l == OwnListing(d)
  }

  ghost predicate SwapMid(d: Deployment, s: World, k: nat)
    requires k <= d.Replacements()
  {
    s.saved.status == InProgress && s.saved.stable == SwapStable(d, k) && s.saved.canary == []
  }

  ghost predicate AllUsable(s: World, cs: seq<Container>) {
    forall c :: c in cs ==> s.Usable(c)
  }

  /** No request is anywhere but at these containers. */
  predicate Quiet(s: World, cs: seq<Container>) {
    forall a :: a in s.busy ==> a in Addrs(cs)
  }

  /** The proxy serves exactly these containers, and if the release drains no request
      is anywhere else. */
  ghost predicate Routed(d: Deployment, s: World, cs: seq<Container>) {
    Live(s.accepted.servers) == Addrs(cs) && (d.Drains() ==> Quiet(s, cs))
  }

  /** And they all run. */
  ghost predicate Settled(d: Deployment, s: World, cs: seq<Container>) {
    Routed(d, s, cs) && AllUsable(s, cs)
  }

  /** The old containers a linear release never replaces. */
  function Surplus(d: Deployment): seq<Container> {
    if d.strategy.Linear? then d.olds[d.Replacements()..] else []
  }

  /** Containers that may be named as the targets of an abort. */
  predicate GoodTargets(d: Deployment, s: World, targets: seq<Container>) {
    && targets != []
    && (forall t :: t in targets ==> Trusted(d, s, t))
  }

  function Upto(cs: seq<Container>, j: nat, removing: bool): seq<Container>
    requires j < |cs|
  {
    cs[..if removing then j + 1 else j]
  }

  ghost predicate SwapInv(d: Deployment, i: nat, phase: Phase, s: World)
    requires i < d.Replacements()
  {
    && SwapMid(d, s, i)
    && match phase
       case Health => Facts(d, s, d.news[..i] + d.olds[i..], [], d.olds[..i], d.news[..i])
       case Route => Facts(d, s, d.news[..i] + d.olds[i..], [], d.olds[..i], d.news[..i + 1])
       case DrainOld => Facts(d, s, d.news[..i + 1] + d.olds[i + 1..], [d.olds[i]], d.olds[..i], d.news[..i + 1])
       case StopOld => Facts(d, s, d.news[..i + 1] + d.olds[i + 1..], [], d.olds[..i], d.news[..i + 1])
       case RemoveOld => Facts(d, s, d.news[..i + 1] + d.olds[i + 1..], [], d.olds[..i + 1], d.news[..i + 1])
       case Record => Facts(d, s, d.news[..i + 1] + d.olds[i + 1..], [], d.olds[..i + 1], d.news[..i + 1])
  }

  ghost predicate LinearInv(d: Deployment, p: Point, s: World) {
    var r := d.Replacements();
    match p
    case Swap(i, phase) => i < r && SwapInv(d, i, phase, s)
    case Extra(j) =>
      r <= j < |d.news| && r == |d.olds| && Facts(d, s, d.news[..r] + d.olds[r..], [], d.olds[..r], d.news[..j]) &&
        SwapMid(d, s, r)
    case Settle => Facts(d, s, d.news[..r] + d.olds[r..], [], d.olds[..r], d.news) && SwapMid(d, s, r)
    case SettlePlain => Facts(d, s, d.news, d.olds[r..], d.olds[..r], d.news) && SwapMid(d, s, r)
    case _ => false
  }

  ghost predicate BlueGreenInv(d: Deployment, p: Point, s: World) {
    match p
    case Token => Facts(d, s, d.olds, [], [], d.news)
    case Publish(_) => Facts(d, s, d.olds, [], [], d.news)
    case Check(_, _) => Facts(d, s, d.olds, [], [], d.news)
    case Withdraw(_) => Facts(d, s, d.olds, [], [], d.news)
    case CloseUndo(_) => Facts(d, s, d.olds, [], d.news, [])
    case Cutover => Facts(d, s, d.olds, [], [], d.news)
    case RecordCut => Facts(d, s, if d.config.watch then d.news else d.olds + d.news, d.olds, [], d.news) &&
      s.accepted == CutUpstream(d)
    case Window => Facts(d, s, d.news, d.olds, [], d.news)
    case Soak => Facts(d, s, d.olds + d.news, d.olds, [], d.news)
    case _ => false
  }

  /** Either routing there can be before a canary's next config. */
  ghost predicate EarlyOrSplit(d: Deployment, s: World) {
    Facts(d, s, d.olds, [], [], d.news) || Facts(d, s, d.olds + d.news, [], [], d.news)
  }

  ghost predicate CanaryInv(d: Deployment, p: Point, s: World) {
    match p
    case Shift(w) => 1 <= w < 100 && EarlyOrSplit(d, s)
    case RecordShift(w) => 1 <= w < 100 && Facts(d, s, d.olds + d.news, [], [], d.news) &&
      s.accepted == SplitUpstream(d, w)
    case Observe(w) => 1 <= w < 100 && Facts(d, s, d.olds + d.news, [], [], d.news)
    case _ => false
  }

  ghost predicate PromoteInv(d: Deployment, p: Point, s: World) {
    match p
    case Healthy(j) => j < |d.news| && Facts(d, s, d.olds, [], [], d.news[..j])
    case Promote => EarlyOrSplit(d, s)
    case PromoteDrain => Facts(d, s, d.news, d.olds, [], d.news)
    case PromotePlain => Facts(d, s, d.news, [], [], d.news)
    case _ => false
  }

  ghost predicate BackInv(d: Deployment, l: Listing, p: Point, s: World) {
    match p
    case MarkRolling(ds) => !d.strategy.Linear? && AllUsable(s, d.olds) && Open(s, l) && ds == s.saved
    case Roll(_) => AllUsable(s, d.olds) && Open(s, l)
    case RollDrain(_) => AllUsable(s, d.olds) && Open(s, l) && Live(s.accepted.servers) == Addrs(d.olds)
    case CloseRoll(_) => SweepInv(d, l, GiveBack(""), d.news, s)
    case Abort(targets) => GoodTargets(d, s, targets)
    case AbortDrain(targets) => GoodTargets(d, s, targets) && Live(s.accepted.servers) == Addrs(targets)
    case CloseAbort(targets) => SweepInv(d, l, Discard(targets), [], s)
    case RolledBack(_) =>
      && Settled(d, s, d.olds)
      && s.saved.status == Idle && s.saved.stable == Ids(d.olds) && s.saved.canary == [] && s.saved.token == ""
    case Aborted(targets) => SweepInv(d, l, Discard(targets), [], s) && s.saved == SettledState(d, targets, "")
    case _ => false
  }

  /** What holds of the world at each point of every run. */
  ghost predicate Inv(d: Deployment, l: Listing, p: Point, s: World)
    decreases p
  {
    if p.Failed? then Inv(d, l, p.at, s)
    else if OnLinear(p) then d.strategy.Linear? && LinearInv(d, p, s)
    else if OnBlueGreen(p) then d.strategy.BlueGreen? && Mid(d, s, l) && BlueGreenInv(d, p, s)
    else if OnCanary(p) then d.strategy.Canary? && Mid(d, s, l) && CanaryInv(d, p, s)
    else if OnPromote(p) then !d.strategy.Linear? && Mid(d, s, l) && PromoteInv(d, p, s)
    else if p.Start? then Facts(d, s, d.olds, [], [], []) && l == OwnListing(d)
    else if p.Sweep? then p.j < |Swept(d, p.why)| && SweepInv(d, l, p.why, Upto(Swept(d, p.why), p.j, p.removing), s)
    else if p.Finish? then
      (if d.strategy.Linear? then Facts(d, s, d.news, Surplus(d), d.olds[..d.Replacements()], d.news) &&
        SwapMid(d, s, d.Replacements())
       else SweepInv(d, l, Retire, d.olds, s))
    else if p.Done? then
      && Facts(d, s, d.news, Surplus(d), if d.strategy.Linear? then d.olds[..d.Replacements()] else d.olds, d.news)
      && s.saved == FinishedState(d)
    else BackInv(d, l, p, s)
  }

  /** The invariant while containers are removed; `gone` are the ones reached. */
  ghost predicate SweepInv(d: Deployment, l: Listing, why: Why, gone: seq<Container>, s: World) {
    match why
    case Retire => !d.strategy.Linear? && Facts(d, s, d.news, [], gone, d.news) && Mid(d, s, l)
    case Undo(_) => d.strategy.BlueGreen? && Facts(d, s, d.olds, [], gone, []) && Mid(d, s, l)
    case GiveBack(_) => Facts(d, s, d.olds, [], d.olds + d.news, []) && AllUsable(s, d.olds) && Open(s, l)
    case Discard(targets) => GoodTargets(d, s, targets) && Facts(d, s, targets, [], d.olds + d.news, [])
  }

  /** The world a release starts in: everything runs, the proxy lists exactly the
      old containers, and, if the release drains, no request lingers elsewhere. */
  ghost predicate Ready(d: Deployment, s: World) {
    Inv(d, OwnListing(d), Start, s)
  }

  /** The worlds a run can be in at a point. */
  ghost function Possible(d: Deployment, l: Listing, p: Point): iset<World> {
    iset s | Inv(d, l, p, s)
  }

  /** The steps at a point that keep the promise and lead to a possible world. */
  ghost function Kept(d: Deployment, l: Listing, p: Point): iset<(World, Step)> {
    iset w: (World, Step) | StepSafe(d, w.0, w.1) && Allowed(d, p, w.1) && Inv(d, l, Next(d, p, w.1), Apply(w.0, w.1))
  }
}
