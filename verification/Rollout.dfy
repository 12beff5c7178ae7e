/** The vocabulary of a release: containers, the upstream config the proxy
    serves, the saved deployment state, and the effects a release has on them. */
module Rollout {
  import opened Requests

  datatype Option<+T> = None | Some(value: T)

  datatype Container = Container(id: string, addr: string)

  /** One server line of an upstream; weight 0 means no weight directive. */
  datatype Server = Server(addr: string, weight: int, down: bool, backup: bool, group: string)

  datatype Upstream = Upstream(
    service: string,
    upstreamName: string,
    servers: seq<Server>,
    affinity: string,
    keepalive: int,
    stickyLearn: string,
    preview: seq<Server>,
    previewToken: string)

  datatype Status = Idle | InProgress | RollingBack

  datatype DeploymentState = DeploymentState(
    service: string,
    status: Status,
    strategy: string,
    weight: int,
    stable: seq<string>,
    canary: seq<string>,
    failure: string,
    token: string,
    previewURL: string)

  datatype Provider = NginxProxy | Nginx | Angie | Caddy | Traefik | HAProxy | NoProvider

  /** The settings of a service that a release reads. A keepalive of -1 is worked
      out; the last three are lengths of waits, and none if not positive. */
  datatype Settings = Settings(
    upstreamName: string,
    provider: Provider,
    nginxKeepalive: int,
    angieKeepalive: int,
    caddyKeepalive: int,
    stickyLearn: string,
    affinity: string,
    greenWeight: int,
    canaryStart: int,
    canaryStep: int,
    previewHost: string,
    previewToken: string,
    previewBase: string,
    checkCommand: string,
    watch: bool,
    rules: Rules,
    drain: int,
    soak: int,
    interval: int)
  {
    predicate HasPreview() {
      previewHost != "" || previewToken != ""
    }

    /** What the label validation guarantees about the numbers a release uses. */
    predicate Validated() {
      && 1 <= greenWeight <= 100
      && 1 <= canaryStart <= 100
      && 1 <= canaryStep <= 100
      && 0 <= rules.maxErrors
    }
  }

  /** The settings of a rollback that has only the saved state to go by. */
  const BLANK_SETTINGS :=
    Settings("", NoProvider, 0, 0, 0, "", "", 0, 0, 0, "", "", "", "", false, Rules([], [], 0), 0, 0, 0)

  datatype Strategy = Linear | BlueGreen | Canary {
    function Tag(): string {
      match this
      case Linear => "linear"
      case BlueGreen => "blue-green"
      case Canary => "canary"
    }
  }

  datatype Deployment = Deployment(
    service: string,
    strategy: Strategy,
    config: Settings,
    olds: seq<Container>,
    news: seq<Container>,
    hasChecks: bool,
    hasRequests: bool,
    hasProxy: bool)
  {
    /** Whether requests get time to finish before their container is stopped. */
    predicate Drains() {
      config.drain > 0
    }

    function UpstreamName(): string {
      if config.upstreamName != "" then config.upstreamName else service
    }

    function Replacements(): nat {
      if |olds| < |news| then |olds| else |news|
    }
  }

  function Ids(cs: seq<Container>): (ids: seq<string>)
    ensures |ids| == |cs| && forall i :: 0 <= i < |cs| ==> ids[i] == cs[i].id
  {
    seq(|cs|, i requires 0 <= i < |cs| => cs[i].id)
  }

  function Addrs(cs: seq<Container>): (addrs: seq<string>)
    ensures |addrs| == |cs| && forall i :: 0 <= i < |cs| ==> addrs[i] == cs[i].addr
  {
    seq(|cs|, i requires 0 <= i < |cs| => cs[i].addr)
  }

  predicate Distinct(cs: seq<Container>) {
    forall i, j :: 0 <= i < j < |cs| ==> cs[i].id != cs[j].id && cs[i].addr != cs[j].addr
  }

  /** Old and new containers all have their own id and address, there is at least
      one of each, and a proxy is in front of them. */
  predicate WellFormed(d: Deployment) {
    && d.hasProxy
    && |d.olds| > 0 && |d.news| > 0
    && Distinct(d.olds) && Distinct(d.news)
    && (forall o, n :: o in d.olds && n in d.news ==> o.id != n.id && o.addr != n.addr)
  }

  // ---------------------------------------------------------------- upstreams

  /** The addresses that take ordinary traffic, in file order: servers that are
      neither draining nor kept for failure of the others. */
  function Live(servers: seq<Server>): seq<string> {
    if servers == [] then []
    else (if servers[0].down || servers[0].backup then [] else [servers[0].addr]) + Live(servers[1..])
  }

  function Plain(cs: seq<Container>): seq<Server> {
    Weighted(cs, 0, "")
  }

  function Weighted(cs: seq<Container>, weight: int, group: string): (ss: seq<Server>)
    ensures |ss| == |cs|
  {
    seq(|cs|, i requires 0 <= i < |cs| => Server(cs[i].addr, weight, false, false, group))
  }

  function Backups(cs: seq<Container>): (ss: seq<Server>)
    ensures |ss| == |cs|
  {
    seq(|cs|, i requires 0 <= i < |cs| => Server(cs[i].addr, 0, false, true, ""))
  }

  lemma {:induction false} LiveConcat(a: seq<Server>, b: seq<Server>)
    ensures Live(a + b) == Live(a) + Live(b)
  {
    if a == [] {
      assert a + b == b;
    } else {
      assert (a + b)[1..] == a[1..] + b;
      LiveConcat(a[1..], b);
    }
  }

  lemma {:induction false} LiveWeighted(cs: seq<Container>, weight: int, group: string)
    ensures Live(Weighted(cs, weight, group)) == Addrs(cs)
  {
    if cs != [] {
      assert Weighted(cs, weight, group)[1..] == Weighted(cs[1..], weight, group);
      LiveWeighted(cs[1..], weight, group);
      assert Addrs(cs) == [cs[0].addr] + Addrs(cs[1..]);
    }
  }

  lemma {:induction false} LiveBackups(cs: seq<Container>)
    ensures Live(Backups(cs)) == []
  {
    if cs != [] {
      assert Backups(cs)[1..] == Backups(cs[1..]);
      LiveBackups(cs[1..]);
    }
  }

  function ResolveKeepalive(configured: int, serverCount: nat): int {
    if configured >= 0 then configured else if serverCount == 0 then 0 else serverCount + 1
  }

  /** The provider-specific fields of an upstream, set on every config alike. */
  function ApplySettings(config: Settings, u: Upstream): (r: Upstream)
    ensures r == u.(keepalive := r.keepalive, stickyLearn := r.stickyLearn)
  {
    match config.provider
    case NginxProxy => u.(keepalive := ResolveKeepalive(config.nginxKeepalive, |u.servers|))
    case Nginx => u.(keepalive := ResolveKeepalive(config.nginxKeepalive, |u.servers|))
    case Angie => u.(keepalive := ResolveKeepalive(config.angieKeepalive, |u.servers|),
      stickyLearn := config.stickyLearn)
    case Caddy => u.(keepalive := ResolveKeepalive(config.caddyKeepalive, |u.servers|))
    case _ => u
  }

  /** Which settings of the provider go where: a keepalive that is not given makes room
      for one idle connection more than there are servers. */
  lemma SettingsOf(config: Settings, u: Upstream)
    ensures var r := ApplySettings(config, u);
      var given := if config.provider.NginxProxy? || config.provider.Nginx? then config.nginxKeepalive
                   else if config.provider.Angie? then config.angieKeepalive else config.caddyKeepalive;
      && (config.provider.NginxProxy? || config.provider.Nginx? || config.provider.Angie? || config.provider.Caddy? ==>
            r.keepalive == if given >= 0 then given else if u.servers == [] then 0 else |u.servers| + 1)
      && (config.provider.Traefik? || config.provider.HAProxy? || config.provider.NoProvider? ==> r == u)
      && r.stickyLearn == if config.provider.Angie? then config.stickyLearn else u.stickyLearn
  {
  }

  function Base(d: Deployment, affinity: string, servers: seq<Server>): (u: Upstream)
    ensures u.servers == servers && u.affinity == affinity && u.preview == [] && u.previewToken == ""
  {
    ApplySettings(d.config, Upstream(d.service, d.UpstreamName(), servers, affinity, 0, "", [], ""))
  }

  /** Step `i` of a linear release: `i + 1` replacements, the one they displace
      draining, and the old containers still to come. */
  function StepServers(d: Deployment, i: nat): seq<Server>
    requires i < d.Replacements()
  {
    Plain(d.news[..i + 1]) + [Server(d.olds[i].addr, 0, true, false, "")] + Plain(d.olds[i + 1..])
  }

  function StepUpstream(d: Deployment, i: nat): Upstream
    requires i < d.Replacements()
  {
    Base(d, d.config.affinity, StepServers(d, i))
  }

  function OldOnly(d: Deployment, affinity: string): Upstream {
    Base(d, affinity, Plain(d.olds))
  }

  function NewOnly(d: Deployment, affinity: string): Upstream {
    Base(d, affinity, Plain(d.news))
  }

  /** Old and new side by side, `weight` percent of the weight on each new one. */
  function SplitUpstream(d: Deployment, weight: int): Upstream {
    Base(d, d.config.affinity, Weighted(d.olds, 100 - weight, "stable") + Weighted(d.news, weight, "canary"))
  }

  /** Everyone on the new containers, the old ones only for when those fail. */
  function BackupUpstream(d: Deployment, affinity: string): Upstream {
    Base(d, affinity, Plain(d.news) + Backups(d.olds))
  }

  function PreviewUpstream(d: Deployment, token: string): Upstream {
    OldOnly(d, d.config.affinity).(previewToken := token, preview := Plain(d.news))
  }

  /** The config of a deployment that lists exactly `targets`. */
  function TargetUpstream(d: Deployment, targets: seq<Container>): Upstream {
    Base(d, d.config.affinity, Plain(targets))
  }

  lemma LiveOfSplit(d: Deployment, weight: int)
    ensures Live(SplitUpstream(d, weight).servers) == Addrs(d.olds + d.news)
  {
    LiveWeighted(d.olds, 100 - weight, "stable");
    LiveWeighted(d.news, weight, "canary");
    LiveConcat(Weighted(d.olds, 100 - weight, "stable"), Weighted(d.news, weight, "canary"));
  }

  lemma LiveOfBackup(d: Deployment, affinity: string)
    ensures Live(BackupUpstream(d, affinity).servers) == Addrs(d.news)
  {
    LiveWeighted(d.news, 0, "");
    LiveBackups(d.olds);
    LiveConcat(Plain(d.news), Backups(d.olds));
  }

  lemma LiveOfOldOnly(d: Deployment, affinity: string, token: string)
    ensures Live(OldOnly(d, affinity).servers) == Addrs(d.olds)
    ensures Live(PreviewUpstream(d, token).servers) == Addrs(d.olds)
  {
    LiveWeighted(d.olds, 0, "");
  }

  lemma LiveOfNewOnly(d: Deployment, affinity: string)
    ensures Live(NewOnly(d, affinity).servers) == Addrs(d.news)
  {
    LiveWeighted(d.news, 0, "");
  }

  lemma LiveOfTargets(d: Deployment, targets: seq<Container>)
    ensures Live(TargetUpstream(d, targets).servers) == Addrs(targets)
  {
    LiveWeighted(targets, 0, "");
  }

  lemma LiveOfStep(d: Deployment, i: nat)
    requires i < d.Replacements()
    ensures Live(StepUpstream(d, i).servers) == Addrs(d.news[..i + 1] + d.olds[i + 1..])
  {
    var displaced := [Server(d.olds[i].addr, 0, true, false, "")];
    var rest := Plain(d.olds[i + 1..]);
    LiveWeighted(d.news[..i + 1], 0, "");
    LiveWeighted(d.olds[i + 1..], 0, "");
    LiveConcat(Plain(d.news[..i + 1]) + displaced, rest);
    LiveConcat(Plain(d.news[..i + 1]), displaced);
    assert Live(displaced) == [] by { assert displaced[1..] == []; }
    assert Addrs(d.news[..i + 1] + d.olds[i + 1..]) == Addrs(d.news[..i + 1]) + Addrs(d.olds[i + 1..]);
  }

  // ------------------------------------------------------------------ effects

  datatype WindowEnd = Clean | TooManyErrors | Blind

  datatype Op =
    | WaitHealthy(id: string)
    | Configure(upstream: Upstream)
    | NoConfig
    | Pause(length: int)
    | RunCheck(id: string, token: string, reason: string)
    | Watch(delivered: seq<Entry>, end: WindowEnd, reason: string)
    | Stop(id: string)
    | Remove(id: string)
    | Save(state: DeploymentState)

  /** One effect and whether it took. A failed effect changes nothing. */
  datatype Step = Step(op: Op, ok: bool)

  /** The effects of a run, oldest innermost. */
  datatype Log = Empty | Then(before: Log, last: Step)

  /** What a release acts on. `busy` holds the addresses that may still have
      requests of the main traffic in flight: those the proxy sends new requests to
      now, and those it did since the last wait of any length. */
  datatype World = World(
    existing: set<string>,
    stopped: set<string>,
    healthy: set<string>,
    busy: set<string>,
    accepted: Upstream,
    saved: DeploymentState)
  {
    predicate Usable(c: Container) {
      c.id in existing && c.id !in stopped
    }
  }

  function AddrSet(addrs: seq<string>): set<string> {
    set a | a in addrs
  }

  /** Time passes: requests sent to servers that get no more of them are done. */
  function Elapse(s: World): World {
    s.(busy := AddrSet(Live(s.accepted.servers)))
  }

  function Apply(s: World, step: Step): World {
    if !step.ok then s
    else
      match step.op
      case WaitHealthy(id) => s.(healthy := s.healthy + {id})
      case Configure(u) => s.(accepted := u, busy := s.busy + AddrSet(Live(u.servers)))
      case NoConfig => s
      case Pause(length) => if length > 0 then Elapse(s) else s
      case RunCheck(_, _, _) => s
      case Watch(_, end, _) => if end.Clean? then Elapse(s) else s
      case Stop(id) => s.(stopped := s.stopped + {id})
      case Remove(id) => s.(existing := s.existing - {id})
      case Save(ds) => s.(saved := ds)
  }

  /** What a run tried to do, in order, whether it took or not. */
  function Ops(log: Log): seq<Op> {
    if log.Empty? then [] else Ops(log.before) + [log.last.op]
  }

  function Replay(start: World, log: Log): World {
    match log
    case Empty => start
    case Then(before, last) => Apply(Replay(start, before), last)
  }

  /** Every container that a run stops or removes, or tries to, is one of `ids`. */
  predicate TouchesOnly(log: Log, ids: set<string>) {
    match log
    case Empty => true
    case Then(before, last) =>
      && TouchesOnly(before, ids)
      && (last.op.Stop? ==> last.op.id in ids)
      && (last.op.Remove? ==> last.op.id in ids)
  }

  /** Every effect of the run took. */
  predicate AllTook(log: Log) {
    log.Then? ==> log.last.ok && AllTook(log.before)
  }

  function IdSet(cs: seq<Container>): set<string> {
    set c | c in cs :: c.id
  }

  /** `p` is one of the points a run with this log passes through. */
  predicate Prefix(p: Log, log: Log) {
    p == log || (log.Then? && Prefix(p, log.before))
  }
}
