/** Every run keeps the promise: the proof of the invariant, one effect at a
    time, and the theorems about whole runs that follow from it. */
module Safety {
  import opened Rollout
  import opened Machine
  import opened Restart
  import opened Promise

  // ------------------------------------------------------- membership of lists

  lemma AddrIn(cs: seq<Container>, c: Container)
    requires c in cs
    ensures c.addr in Addrs(cs) && c.id in Ids(cs)
  {
    var i :| 0 <= i < |cs| && cs[i] == c;
    assert Addrs(cs)[i] == c.addr && Ids(cs)[i] == c.id;
  }

  lemma OfAddr(cs: seq<Container>, a: string) returns (c: Container)
    requires a in Addrs(cs)
    ensures c in cs && c.addr == a
  {
    var i :| 0 <= i < |cs| && Addrs(cs)[i] == a;
    c := cs[i];
  }

  /** In a well-formed release an id or an address picks out one container. */
  lemma SameContainer(d: Deployment, a: Container, b: Container)
    requires WellFormed(d) && Mine(d, a) && Mine(d, b)
    ensures a.id == b.id <==> a == b
    ensures a.addr == b.addr <==> a == b
  {
  }

  lemma ServesList(d: Deployment, s: World, u: Upstream, cs: seq<Container>)
    requires cs != [] && Live(u.servers) == Addrs(cs)
    requires forall c :: c in cs ==> Trusted(d, s, c)
    ensures Serves(d, s, u)
  {
    assert |Live(u.servers)| == |cs|;
    forall a | a in Live(u.servers) ensures exists c :: Trusted(d, s, c) && c.addr == a {
      var c := OfAddr(cs, a);
    }
  }

  lemma NotIn(d: Deployment, cs: seq<Container>, c: Container)
    requires WellFormed(d) && Mine(d, c) && (forall x :: x in cs ==> Mine(d, x)) && c !in cs
    ensures c.addr !in Addrs(cs) && c.id !in Ids(cs)
  {
    forall i | 0 <= i < |cs| ensures Addrs(cs)[i] != c.addr && Ids(cs)[i] != c.id {
      assert cs[i] in cs;
      SameContainer(d, cs[i], c);
    }
  }

  // ------------------------------------------------------------ preservation

  /** No container outside `routed` takes traffic or, after a drain, holds requests. */
  lemma QuietIsSafe(d: Deployment, s: World, routed: seq<Container>, gone: seq<Container>,
                    proven: seq<Container>, c: Container)
    requires WellFormed(d) && Mine(d, c) && c !in routed && (forall x :: x in routed ==> Mine(d, x))
    requires Facts(d, s, routed, [], gone, proven)
    ensures StepSafe(d, s, Step(Stop(c.id), true)) && StepSafe(d, s, Step(Stop(c.id), false))
    ensures StepSafe(d, s, Step(Remove(c.id), true)) && StepSafe(d, s, Step(Remove(c.id), false))
  {
    NotIn(d, routed, c);
    forall x | Mine(d, x) && x.id == c.id ensures Idles(d, s, x) {
      SameContainer(d, x, c);
    }
  }

  lemma SwapSlices(d: Deployment, i: nat)
    requires WellFormed(d) && i < d.Replacements()
    ensures d.olds[i] !in d.news[..i + 1] + d.olds[i + 1..]
    ensures d.olds[i..] == [d.olds[i]] + d.olds[i + 1..]
    ensures d.olds[..i + 1] == d.olds[..i] + [d.olds[i]]
    ensures d.news[..i + 1] == d.news[..i] + [d.news[i]]
    ensures forall c :: c in d.news[..i + 1] + d.olds[i + 1..] ==> Mine(d, c) && c !in d.olds[..i + 1]
    ensures forall c :: c in d.news[..i] + d.olds[i..] ==> Mine(d, c) && c !in d.olds[..i]
  {
    assert d.olds[i] in d.olds && d.olds[i] !in d.news;
    forall k | 0 <= k < |d.olds| && k != i ensures d.olds[k] != d.olds[i] {
    }
  }

  // One lemma for what each effect does to the facts.

  lemma FactsWait(d: Deployment, s: World, routed: seq<Container>, lingering: seq<Container>,
                  gone: seq<Container>, proven: seq<Container>, c: Container)
    requires Facts(d, s, routed, lingering, gone, proven)
    ensures Facts(d, Apply(s, Step(WaitHealthy(c.id), true)), routed, lingering, gone, proven + [c])
  {
  }

  lemma FactsPause(d: Deployment, s: World, routed: seq<Container>, lingering: seq<Container>,
                   gone: seq<Container>, proven: seq<Container>)
    requires Facts(d, s, routed, lingering, gone, proven)
    ensures Facts(d, Elapse(s), routed, [], gone, proven)
    ensures Facts(d, Apply(s, Step(Pause(d.config.drain), true)), routed, [], gone, proven)
  {
  }

  /** What lingers at routed containers does not linger. */
  lemma FactsAbsorb(d: Deployment, s: World, routed: seq<Container>, lingering: seq<Container>,
                    gone: seq<Container>, proven: seq<Container>)
    requires Facts(d, s, routed, lingering, gone, proven) && forall c :: c in lingering ==> c in routed
    ensures Facts(d, s, routed, [], gone, proven)
    ensures forall length :: Facts(d, Apply(s, Step(Pause(length), true)), routed, [], gone, proven)
  {
    forall a | a in Addrs(lingering) ensures a in Addrs(routed) {
      var c := OfAddr(lingering, a);
      AddrIn(routed, c);
    }
  }

  lemma FactsGone(d: Deployment, s: World, routed: seq<Container>, lingering: seq<Container>,
                  gone: seq<Container>, proven: seq<Container>, c: Container)
    requires WellFormed(d) && Mine(d, c)
    requires Facts(d, s, routed, lingering, gone, proven)
    ensures forall ok :: Facts(d, Apply(s, Step(Stop(c.id), ok)), routed, lingering, gone + [c], proven)
    ensures forall ok :: Facts(d, Apply(s, Step(Remove(c.id), ok)), routed, lingering, gone + [c], proven)
  {
    forall x | Mine(d, x) && x !in gone + [c] ensures s.Usable(x) && x.id != c.id {
      SameContainer(d, x, c);
    }
  }

  lemma FactsGoneAgain(d: Deployment, s: World, routed: seq<Container>, lingering: seq<Container>,
                       gone: seq<Container>, proven: seq<Container>, c: Container)
    requires WellFormed(d) && Mine(d, c) && c in gone
    requires Facts(d, s, routed, lingering, gone, proven)
    ensures forall ok :: Facts(d, Apply(s, Step(Remove(c.id), ok)), routed, lingering, gone, proven)
    ensures forall ok :: Facts(d, Apply(s, Step(Stop(c.id), ok)), routed, lingering, gone, proven)
  {
    forall x | Mine(d, x) && x !in gone ensures s.Usable(x) && x.id != c.id {
      SameContainer(d, x, c);
    }
  }

  /** A new config makes the old one linger. */
  lemma FactsConfigure(d: Deployment, s: World, routed: seq<Container>, lingering: seq<Container>,
                       gone: seq<Container>, proven: seq<Container>,
                       u: Upstream, routed': seq<Container>, lingering': seq<Container>)
    requires Facts(d, s, routed, lingering, gone, proven)
    requires Live(u.servers) == Addrs(routed')
    requires forall c :: c in routed || c in lingering ==> c in routed' || c in lingering'
    ensures Facts(d, Apply(s, Step(Configure(u), true)), routed', lingering', gone, proven)
  {
    forall a | d.Drains() && a in Apply(s, Step(Configure(u), true)).busy
      ensures a in Addrs(routed') || a in Addrs(lingering')
    {
      if a in s.busy {
        var c := OfAddr(if a in Addrs(routed) then routed else lingering, a);
        AddrIn(if c in routed' then routed' else lingering', c);
      }
    }
  }

  lemma FactsSave(d: Deployment, s: World, routed: seq<Container>, lingering: seq<Container>,
                  gone: seq<Container>, proven: seq<Container>, ds: DeploymentState)
    requires Facts(d, s, routed, lingering, gone, proven)
    ensures Facts(d, Apply(s, Step(Save(ds), true)), routed, lingering, gone, proven)
  {
  }

  lemma TrustedFromFacts(d: Deployment, s: World, routed: seq<Container>, lingering: seq<Container>,
                         gone: seq<Container>, proven: seq<Container>, cs: seq<Container>)
    requires Facts(d, s, routed, lingering, gone, proven)
    requires forall c :: c in cs ==> c !in gone && (c in d.olds || (c in d.news && c in proven))
    ensures forall c :: c in cs ==> Trusted(d, s, c)
  {
  }

  // ------------------------------------------------------------------- linear

  lemma KeepsSwapRoute(d: Deployment, i: nat, s: World, step: Step)
    requires WellFormed(d) && i < d.Replacements() && SwapInv(d, i, Route, s) &&
      step == Step(Configure(StepUpstream(d, i)), true)
    ensures StepSafe(d, s, step) && SwapInv(d, i, DrainOld, Apply(s, step))
  {
    SwapSlices(d, i);
    LiveOfStep(d, i);
    var before := d.news[..i] + d.olds[i..];
    var after := d.news[..i + 1] + d.olds[i + 1..];
    TrustedFromFacts(d, s, before, [], d.olds[..i], d.news[..i + 1], after);
    ServesList(d, s, step.op.upstream, after);
    FactsConfigure(d, s, before, [], d.olds[..i], d.news[..i + 1], step.op.upstream, after, [d.olds[i]]);
  }

  lemma KeepsSwapStop(d: Deployment, i: nat, s: World, step: Step)
    requires WellFormed(d) && i < d.Replacements() && SwapInv(d, i, StopOld, s) && step.op == Stop(d.olds[i].id)
    ensures StepSafe(d, s, step) && SwapInv(d, i, RemoveOld, Apply(s, step))
  {
    SwapSlices(d, i);
    var routed := d.news[..i + 1] + d.olds[i + 1..];
    QuietIsSafe(d, s, routed, d.olds[..i], d.news[..i + 1], d.olds[i]);
    FactsGone(d, s, routed, [], d.olds[..i], d.news[..i + 1], d.olds[i]);
    assert step == Step(Stop(d.olds[i].id), step.ok);
  }

  lemma KeepsSwapRemove(d: Deployment, i: nat, s: World, step: Step)
    requires WellFormed(d) && i < d.Replacements() && SwapInv(d, i, RemoveOld, s) && step.op == Remove(d.olds[i].id)
    ensures StepSafe(d, s, step) && SwapInv(d, i, Record, Apply(s, step))
  {
    SwapSlices(d, i);
    var routed := d.news[..i + 1] + d.olds[i + 1..];
    QuietIsSafe(d, s, routed, d.olds[..i + 1], d.news[..i + 1], d.olds[i]);
    FactsGoneAgain(d, s, routed, [], d.olds[..i + 1], d.news[..i + 1], d.olds[i]);
    assert step == Step(Remove(d.olds[i].id), step.ok);
  }

  /** A state that names the containers the proxy serves agrees with the proxy,
      if it is idle or a linear release is still going on. */
  lemma NamingAgrees(d: Deployment, ds: DeploymentState, u: Upstream, cs: seq<Container>)
    requires ds.stable == Ids(cs) && Live(u.servers) == Addrs(cs)
    requires forall c :: c in cs ==> Mine(d, c)
    requires if ds.status == Idle then ds.canary == [] && ds.token == "" else d.strategy.Linear?
    ensures SaveAgrees(d, ds, u)
  {
    hide Live, RestartUpstream;
    assert Names(d, ds.stable, u);
  }

  /** Recording replacement `i` names what the proxy serves, and the next
      replacement starts from there. */
  lemma KeepsSwapRecord(d: Deployment, i: nat, s: World, step: Step)
    requires WellFormed(d) && d.strategy.Linear? && i < d.Replacements() && SwapInv(d, i, Record, s)
    requires step == Step(Save(SwapState(d, i + 1)), true)
    ensures StepSafe(d, s, step)
    ensures SwapMid(d, Apply(s, step), i + 1)
    ensures Facts(d, Apply(s, step), d.news[..i + 1] + d.olds[i + 1..], [], d.olds[..i + 1], d.news[..i + 1])
  {
    hide Facts, Live, WellFormed, SwapStable, SaveAgrees;
    var cs := d.news[..i + 1] + d.olds[i + 1..];
    assert Live(s.accepted.servers) == Addrs(cs) by { RoutedIs(d, s, cs, [], d.olds[..i + 1], d.news[..i + 1]); }
    FactsSave(d, s, cs, [], d.olds[..i + 1], d.news[..i + 1], step.op.state);
    SwapAgrees(d, i, s.accepted);
  }

  lemma RoutedIs(d: Deployment, s: World, routed: seq<Container>, lingering: seq<Container>,
                 gone: seq<Container>, proven: seq<Container>)
    requires Facts(d, s, routed, lingering, gone, proven)
    ensures Live(s.accepted.servers) == Addrs(routed)
  {
  }

  /** What a replacement records agrees with the config it made. */
  lemma SwapAgrees(d: Deployment, i: nat, u: Upstream)
    requires d.strategy.Linear? && i < d.Replacements()
    requires Live(u.servers) == Addrs(d.news[..i + 1] + d.olds[i + 1..])
    ensures SaveAgrees(d, SwapState(d, i + 1), u)
  {
    hide Live, SaveAgrees;
    var cs := d.news[..i + 1] + d.olds[i + 1..];
    if |d.olds| <= |d.news| {
      assert Ids(cs) == Ids(d.news[..i + 1]) + Ids(d.olds[i + 1..]);
      assert i + 1 == |d.olds| ==> Ids(d.olds[i + 1..]) == [];
      NamingAgrees(d, SwapState(d, i + 1), u, cs);
    } else {
      SurplusAgrees(d, SwapState(d, i + 1), u);
    }
  }

  lemma SurplusAgrees(d: Deployment, ds: DeploymentState, u: Upstream)
    requires d.strategy.Linear? && |d.olds| > |d.news| && ds.status == InProgress
    ensures SaveAgrees(d, ds, u)
  {
  }

  lemma KeepsSwapHealth(d: Deployment, l: Listing, i: nat, s: World, step: Step)
    requires WellFormed(d)
    requires s in Possible(d, l, Swap(i, Health)) && Allowed(d, Swap(i, Health), step)
    ensures (s, step) in Kept(d, l, Swap(i, Health))
  {
    hide SaveAgrees, Serves, Live, Facts, NextBlueGreen, AllowedBlueGreen, BlueGreenInv, NextBack;
    hide AllowedBack, BackInv, GoingBack;
    if step.ok {
      SwapSlices(d, i);
      FactsWait(d, s, d.news[..i] + d.olds[i..], [], d.olds[..i], d.news[..i], d.news[i]);
      assert step == Step(WaitHealthy(d.news[i].id), true);
    }
  }

  lemma KeepsSwapDrain(d: Deployment, l: Listing, i: nat, s: World, step: Step)
    requires WellFormed(d)
    requires s in Possible(d, l, Swap(i, DrainOld)) && Allowed(d, Swap(i, DrainOld), step)
    ensures (s, step) in Kept(d, l, Swap(i, DrainOld))
  {
    hide SaveAgrees, Serves, Live, Facts, WellFormed, NextBlueGreen, AllowedBlueGreen, BlueGreenInv;
    hide NextBack, AllowedBack, BackInv, GoingBack;
    if step.ok {
      FactsPause(d, s, d.news[..i + 1] + d.olds[i + 1..], [d.olds[i]], d.olds[..i], d.news[..i + 1]);
      assert step == Step(Pause(d.config.drain), true);
    }
  }

  lemma KeepsSwapPhase(d: Deployment, l: Listing, i: nat, phase: Phase, s: World, step: Step)
    requires WellFormed(d) && !phase.Record?
    requires s in Possible(d, l, Swap(i, phase)) && Allowed(d, Swap(i, phase), step)
    ensures (s, step) in Kept(d, l, Swap(i, phase))
  {
    match phase
    case Health => KeepsSwapHealth(d, l, i, s, step);
    case Route =>
      hide SaveAgrees, Serves, Live, WellFormed, Facts, NextBlueGreen, AllowedBlueGreen, BlueGreenInv;
      hide NextBack, AllowedBack, BackInv, GoingBack;
      if step.ok { KeepsSwapRoute(d, i, s, step); }
    case DrainOld => KeepsSwapDrain(d, l, i, s, step);
    case StopOld =>
      hide SaveAgrees, Serves, Live, WellFormed, Facts;
      KeepsSwapStop(d, i, s, step);
    case RemoveOld =>
      hide SaveAgrees, Serves, Live, WellFormed, Facts;
      KeepsSwapRemove(d, i, s, step);
  }

  /** Where the swaps lead: to the next one, to the containers beyond the old
      count, or to the final config. */
  lemma AfterSwap(d: Deployment, l: Listing, i: nat, s: World)
    requires WellFormed(d) && d.strategy.Linear? && i <= d.Replacements()
    requires SwapMid(d, s, i) && Facts(d, s, d.news[..i] + d.olds[i..], [], d.olds[..i], d.news[..i])
    ensures s in Possible(d, l, SwapFrom(d, i))
  {
    if i == d.Replacements() && |d.news| <= |d.olds| {
      assert d.news[..i] == d.news;
    }
  }

  lemma KeepsRecord(d: Deployment, l: Listing, i: nat, s: World, step: Step)
    requires WellFormed(d)
    requires s in Possible(d, l, Swap(i, Record)) && Allowed(d, Swap(i, Record), step)
    ensures (s, step) in Kept(d, l, Swap(i, Record))
  {
    hide Facts, SaveAgrees, Serves, Live, SwapStable, WellFormed, NextBlueGreen, AllowedBlueGreen;
    hide BlueGreenInv, NextBack, AllowedBack, BackInv, GoingBack;
    if step.ok {
      KeepsSwapRecord(d, i, s, step);
      AfterSwap(d, l, i + 1, Apply(s, step));
    }
  }

  lemma KeepsExtra(d: Deployment, l: Listing, j: nat, s: World, step: Step)
    requires WellFormed(d)
    requires s in Possible(d, l, Extra(j)) && Allowed(d, Extra(j), step)
    ensures (s, step) in Kept(d, l, Extra(j))
  {
    hide SaveAgrees, Serves, Live, WellFormed, NextBlueGreen, AllowedBlueGreen, BlueGreenInv, NextBack;
    hide AllowedBack, BackInv, GoingBack;
    if step.ok {
      var r := d.Replacements();
      FactsWait(d, s, d.news[..r] + d.olds[r..], [], d.olds[..r], d.news[..j], d.news[j]);
      assert d.news[..j] + [d.news[j]] == d.news[..j + 1];
      if j + 1 == |d.news| {
        assert d.news[..j + 1] == d.news;
      }
    }
  }

  lemma KeepsSettle(d: Deployment, l: Listing, s: World, step: Step)
    requires WellFormed(d)
    requires s in Possible(d, l, Settle) && Allowed(d, Settle, step)
    ensures (s, step) in Kept(d, l, Settle)
  {
    hide SaveAgrees, Serves, Live, Distinct, NextBlueGreen, AllowedBlueGreen, BlueGreenInv, NextBack;
    hide AllowedBack, BackInv, GoingBack;
    if step.ok {
      var r := d.Replacements();
      var before := d.news[..r] + d.olds[r..];
      LiveOfNewOnly(d, d.config.affinity);
      TrustedFromFacts(d, s, before, [], d.olds[..r], d.news, d.news);
      ServesList(d, s, step.op.upstream, d.news);
      FactsConfigure(d, s, before, [], d.olds[..r], d.news, step.op.upstream, d.news, d.olds[r..]);
    }
  }

  lemma KeepsSettlePlain(d: Deployment, l: Listing, s: World, step: Step)
    requires WellFormed(d)
    requires s in Possible(d, l, SettlePlain) && Allowed(d, SettlePlain, step)
    ensures (s, step) in Kept(d, l, SettlePlain)
  {
    hide SaveAgrees, Serves, Live, Distinct, NextBlueGreen, AllowedBlueGreen, BlueGreenInv, NextBack;
    hide AllowedBack, BackInv, GoingBack;
    if step.ok {
      var r := d.Replacements();
      LiveOfNewOnly(d, "");
      TrustedFromFacts(d, s, d.news, d.olds[r..], d.olds[..r], d.news, d.news);
      ServesList(d, s, step.op.upstream, d.news);
      FactsConfigure(d, s, d.news, d.olds[r..], d.olds[..r], d.news, step.op.upstream, d.news, d.olds[r..]);
    }
  }

  lemma KeepsFinish(d: Deployment, l: Listing, s: World, step: Step)
    requires WellFormed(d)
    requires s in Possible(d, l, Finish) && Allowed(d, Finish, step)
    ensures (s, step) in Kept(d, l, Finish)
  {
    hide SaveAgrees, Serves, Live, WellFormed, NextBlueGreen, AllowedBlueGreen, BlueGreenInv, GoingBack;
    if step.ok {
      NamingAgrees(d, step.op.state, s.accepted, d.news);
    }
  }

  // ------------------------------------------------- blue-green and canary

  /** Before a weight is on record there is nothing yet to agree with. */
  lemma WeightlessAgrees(d: Deployment, ds: DeploymentState, u: Upstream)
    requires !d.strategy.Linear? && ds.status == InProgress && ds.weight == 0
    ensures SaveAgrees(d, ds, u)
  {
  }

  lemma KeepsStart(d: Deployment, l: Listing, s: World, step: Step)
    requires WellFormed(d) && d.config.Validated()
    requires s in Possible(d, l, Start) && Allowed(d, Start, step)
    ensures (s, step) in Kept(d, l, Start)
  {
    hide SaveAgrees, Serves, Live, WellFormed, NextBlueGreen, AllowedBlueGreen, GoingBack;
    if step.ok {
      if d.strategy.Linear? {
        NamingAgrees(d, step.op.state, s.accepted, d.olds);
      } else {
        WeightlessAgrees(d, step.op.state, s.accepted);
      }
      if d.strategy.Linear? {
        assert d.news[..0] + d.olds[0..] == d.olds;
        assert Ids(d.news[..0]) == [] && d.olds[..0] == [] && d.news[..0] == [];
        assert SwapStable(d, 0) == Ids(d.olds);
        AfterSwap(d, l, 0, Apply(s, step));
      } else {
        assert d.news[..0] == [];
      }
    }
  }

  lemma AfterHealthy(d: Deployment, l: Listing, j: nat, s: World)
    requires WellFormed(d) && d.config.Validated() && !d.strategy.Linear? && j <= |d.news|
    requires Facts(d, s, d.olds, [], [], d.news[..j]) && Mid(d, s, l)
    ensures s in Possible(d, l, HealthyFrom(d, j))
  {
    assert d.news[..|d.news|] == d.news;
  }

  lemma KeepsHealthy(d: Deployment, l: Listing, j: nat, s: World, step: Step)
    requires WellFormed(d) && d.config.Validated()
    requires s in Possible(d, l, Healthy(j)) && Allowed(d, Healthy(j), step)
    ensures (s, step) in Kept(d, l, Healthy(j))
  {
    hide SaveAgrees, Serves, Live, WellFormed, NextLinear, AllowedLinear, LinearInv, GoingBack;
    if step.ok {
      FactsWait(d, s, d.olds, [], [], d.news[..j], d.news[j]);
      assert d.news[..j] + [d.news[j]] == d.news[..j + 1];
      AfterHealthy(d, l, j + 1, Apply(s, step));
    }
  }

  lemma KeepsToken(d: Deployment, l: Listing, s: World, step: Step)
    requires WellFormed(d)
    requires s in Possible(d, l, Token) && Allowed(d, Token, step)
    ensures (s, step) in Kept(d, l, Token)
  {
    hide SaveAgrees, Serves, Live, WellFormed, NextLinear, AllowedLinear, LinearInv, NextBack;
    hide AllowedBack, BackInv, GoingBack;
    if step.ok {
      WeightlessAgrees(d, step.op.state, s.accepted);
    }
  }

  lemma KeepsPublish(d: Deployment, l: Listing, token: string, s: World, step: Step)
    requires WellFormed(d)
    requires s in Possible(d, l, Publish(token)) && Allowed(d, Publish(token), step)
    ensures (s, step) in Kept(d, l, Publish(token))
  {
    hide SaveAgrees, Serves, Live, Distinct, NextLinear, AllowedLinear, LinearInv, NextBack, AllowedBack;
    hide BackInv, GoingBack;
    if step.ok {
      LiveOfOldOnly(d, "", token);
      TrustedFromFacts(d, s, d.olds, [], [], d.news, d.olds);
      ServesList(d, s, step.op.upstream, d.olds);
      FactsConfigure(d, s, d.olds, [], [], d.news, step.op.upstream, d.olds, []);
    }
  }

  lemma BeginUndo(d: Deployment, l: Listing, reason: string, s: World)
    requires WellFormed(d) && d.strategy.BlueGreen?
    requires Facts(d, s, d.olds, [], [], d.news) && Mid(d, s, l)
    ensures s in Possible(d, l, SweepFrom(d, Undo(reason), 0))
  {
    assert d.news[..0] == [];
  }

  lemma KeepsCheck(d: Deployment, l: Listing, j: nat, token: string, s: World, step: Step)
    requires WellFormed(d)
    requires s in Possible(d, l, Check(j, token)) && Allowed(d, Check(j, token), step)
    ensures (s, step) in Kept(d, l, Check(j, token))
  {
    hide SaveAgrees, Serves, Live, WellFormed, NextLinear, AllowedLinear, LinearInv, NextBack;
    hide AllowedBack, BackInv, GoingBack;
    assert Apply(s, step) == s;
    if !step.ok {
      BeginUndo(d, l, step.op.reason, s);
    }
  }

  lemma KeepsWithdraw(d: Deployment, l: Listing, reason: string, s: World, step: Step)
    requires WellFormed(d)
    requires s in Possible(d, l, Withdraw(reason)) && Allowed(d, Withdraw(reason), step)
    ensures (s, step) in Kept(d, l, Withdraw(reason))
  {
    hide SaveAgrees, Serves, Live, Distinct, NextLinear, AllowedLinear, LinearInv, NextBack, AllowedBack;
    hide BackInv, GoingBack;
    if step.ok {
      LiveOfOldOnly(d, d.config.affinity, "");
      TrustedFromFacts(d, s, d.olds, [], [], d.news, d.olds);
      ServesList(d, s, step.op.upstream, d.olds);
      FactsConfigure(d, s, d.olds, [], [], d.news, step.op.upstream, d.olds, []);
    }
    BeginUndo(d, l, reason, Apply(s, step));
  }

  lemma KeepsCloseUndo(d: Deployment, l: Listing, reason: string, s: World, step: Step)
    requires WellFormed(d)
    requires s in Possible(d, l, CloseUndo(reason)) && Allowed(d, CloseUndo(reason), step)
    ensures (s, step) in Kept(d, l, CloseUndo(reason))
  {
    hide SaveAgrees, Serves, Live, Distinct, NextLinear, AllowedLinear, LinearInv, NextBack, AllowedBack;
    hide GoingBack;
    if step.ok {
      NamingAgrees(d, step.op.state, s.accepted, d.olds);
    }
  }

  lemma KeepsCutover(d: Deployment, l: Listing, s: World, step: Step)
    requires WellFormed(d)
    requires s in Possible(d, l, Cutover) && Allowed(d, Cutover, step)
    ensures (s, step) in Kept(d, l, Cutover)
  {
    hide SaveAgrees, Serves, Live, Distinct, Facts, NextLinear, AllowedLinear, LinearInv, NextBack;
    hide AllowedBack, BackInv, GoingBack;
    if step.ok {
      var after := if d.config.watch then d.news else d.olds + d.news;
      assert Live(CutUpstream(d).servers) == Addrs(after) by {
        LiveOfNewOnly(d, d.config.affinity);
        LiveOfSplit(d, d.config.greenWeight);
      }
      TrustedFromFacts(d, s, d.olds, [], [], d.news, after);
      ServesList(d, s, step.op.upstream, after);
      FactsConfigure(d, s, d.olds, [], [], d.news, step.op.upstream, after, d.olds);
    }
  }

  /** At every recorded weight between 1 and 99 a restart writes the config the
      proxy has, and after a watched switch the same servers with equal shares. */
  lemma WeightAgrees(d: Deployment, u: Upstream, weight: int)
    requires WellFormed(d) && !d.strategy.Linear? && 1 <= weight <= 100
    requires weight < 100 ==> u == SplitUpstream(d, weight)
    requires weight == 100 && d.config.watch ==> u.servers == Plain(d.news)
    ensures SaveAgrees(d, WeightState(d, weight), u)
  {
    forall book | Resolves(d, book) ensures
        && RestartUpstream(d.service, d.config, WeightState(d, weight), book).Some?
        && var u := RestartUpstream(d.service, d.config, WeightState(d, weight), book).value;
           (weight < 100 ==> Resolved(u) == Resolved(SplitUpstream(d, weight)))
           && (weight == 100 ==> u.servers == Weighted(d.news, 100, "canary"))
    {
      if weight < 100 {
        RestartIsSplit(d, WeightState(d, weight), book);
      } else {
        RestartAtHundred(d, WeightState(d, weight), book);
      }
    }
  }

  lemma KeepsRecordCut(d: Deployment, l: Listing, s: World, step: Step)
    requires WellFormed(d) && d.config.Validated()
    requires s in Possible(d, l, RecordCut) && Allowed(d, RecordCut, step)
    ensures (s, step) in Kept(d, l, RecordCut)
  {
    hide SaveAgrees, Serves, Live, WellFormed, NextLinear, AllowedLinear, LinearInv, NextBack;
    hide AllowedBack, BackInv, GoingBack;
    if step.ok {
      WeightAgrees(d, s.accepted, CutWeight(d));
    }
  }

  lemma BeginRetire(d: Deployment, l: Listing, s: World)
    requires WellFormed(d) && !d.strategy.Linear?
    requires Facts(d, s, d.news, [], [], d.news) && Mid(d, s, l)
    ensures s in Possible(d, l, SweepFrom(d, Retire, 0))
  {
    assert d.olds[..0] == [];
  }

  lemma KeepsWindow(d: Deployment, l: Listing, s: World, step: Step)
    requires WellFormed(d)
    requires s in Possible(d, l, Window) && Allowed(d, Window, step)
    ensures (s, step) in Kept(d, l, Window)
  {
    hide SaveAgrees, Serves, Live, WellFormed, NextLinear, AllowedLinear, LinearInv, NextBack;
    hide AllowedBack, GoingBack;
    if step.ok && step.op.end.Clean? {
      FactsPause(d, s, d.news, d.olds, [], d.news);
      assert Apply(s, step) == Elapse(s);
      BeginRetire(d, l, Apply(s, step));
    }
  }

  lemma KeepsSoak(d: Deployment, l: Listing, s: World, step: Step)
    requires WellFormed(d)
    requires s in Possible(d, l, Soak) && Allowed(d, Soak, step)
    ensures (s, step) in Kept(d, l, Soak)
  {
    hide SaveAgrees, Serves, Live, WellFormed, NextLinear, AllowedLinear, LinearInv, NextBack;
    hide AllowedBack, BackInv, GoingBack;
    if step.ok {
      FactsAbsorb(d, s, d.olds + d.news, d.olds, [], d.news);
      assert step == Step(Pause(d.config.soak), true);
    }
  }

  lemma KeepsShift(d: Deployment, l: Listing, w: int, s: World, step: Step)
    requires WellFormed(d)
    requires s in Possible(d, l, Shift(w)) && Allowed(d, Shift(w), step)
    ensures (s, step) in Kept(d, l, Shift(w))
  {
    hide SaveAgrees, Serves, Live, Distinct, Facts, NextLinear, AllowedLinear, LinearInv, GoingBack;
    if step.ok {
      LiveOfSplit(d, w);
      var before := if Facts(d, s, d.olds, [], [], d.news) then d.olds else d.olds + d.news;
      TrustedFromFacts(d, s, before, [], [], d.news, d.olds + d.news);
      ServesList(d, s, step.op.upstream, d.olds + d.news);
      FactsConfigure(d, s, before, [], [], d.news, step.op.upstream, d.olds + d.news, []);
    }
  }

  lemma KeepsRecordShift(d: Deployment, l: Listing, w: int, s: World, step: Step)
    requires WellFormed(d)
    requires s in Possible(d, l, RecordShift(w)) && Allowed(d, RecordShift(w), step)
    ensures (s, step) in Kept(d, l, RecordShift(w))
  {
    hide SaveAgrees, Serves, Live, WellFormed, NextLinear, AllowedLinear, LinearInv, GoingBack;
    if step.ok {
      WeightAgrees(d, s.accepted, w);
    }
  }

  lemma KeepsObserve(d: Deployment, l: Listing, w: int, s: World, step: Step)
    requires WellFormed(d) && d.config.Validated()
    requires s in Possible(d, l, Observe(w)) && Allowed(d, Observe(w), step)
    ensures (s, step) in Kept(d, l, Observe(w))
  {
    hide SaveAgrees, Serves, Live, WellFormed, NextLinear, AllowedLinear, LinearInv, GoingBack;
    if step.ok {
      FactsAbsorb(d, s, d.olds + d.news, [], [], d.news);
      assert step == Step(Pause(d.config.interval), true);
    }
  }

  lemma KeepsPromote(d: Deployment, l: Listing, s: World, step: Step)
    requires WellFormed(d)
    requires s in Possible(d, l, Promote) && Allowed(d, Promote, step)
    ensures (s, step) in Kept(d, l, Promote)
  {
    hide SaveAgrees, Serves, Live, Distinct, Facts, BackupUpstream, NextLinear, NextBlueGreen, NextBack;
    hide AllowedLinear, AllowedBlueGreen, AllowedBack;
    if step.ok {
      LiveOfBackup(d, DrainAffinity(d));
      var before := if Facts(d, s, d.olds, [], [], d.news) then d.olds else d.olds + d.news;
      TrustedFromFacts(d, s, before, [], [], d.news, d.news);
      ServesList(d, s, step.op.upstream, d.news);
      FactsConfigure(d, s, before, [], [], d.news, step.op.upstream, d.news, d.olds);
    }
  }

  lemma KeepsPromoteDrain(d: Deployment, l: Listing, s: World, step: Step)
    requires WellFormed(d)
    requires s in Possible(d, l, PromoteDrain) && Allowed(d, PromoteDrain, step)
    ensures (s, step) in Kept(d, l, PromoteDrain)
  {
    hide SaveAgrees, Serves, Live, WellFormed, NextLinear, AllowedLinear, LinearInv, GoingBack;
    if step.ok {
      FactsPause(d, s, d.news, d.olds, [], d.news);
      assert step == Step(Pause(d.config.drain), true);
    }
  }

  lemma KeepsPromotePlain(d: Deployment, l: Listing, s: World, step: Step)
    requires WellFormed(d)
    requires s in Possible(d, l, PromotePlain) && Allowed(d, PromotePlain, step)
    ensures (s, step) in Kept(d, l, PromotePlain)
  {
    hide SaveAgrees, Serves, Live, Distinct, NextLinear, AllowedLinear, LinearInv, GoingBack;
    if step.ok {
      LiveOfNewOnly(d, "");
      TrustedFromFacts(d, s, d.news, [], [], d.news, d.news);
      ServesList(d, s, step.op.upstream, d.news);
      FactsConfigure(d, s, d.news, [], [], d.news, step.op.upstream, d.news, []);
      BeginRetire(d, l, Apply(s, step));
    }
  }

  // --------------------------------------------------- removing containers

  function RoutedDuring(d: Deployment, why: Why): seq<Container> {
    match why
    case Retire => d.news
    case Undo(_) => d.olds
    case GiveBack(_) => d.olds
    case Discard(targets) => targets
  }

  lemma SweptIsQuiet(d: Deployment, l: Listing, why: Why, gone: seq<Container>, s: World, c: Container)
    requires WellFormed(d) && SweepInv(d, l, why, gone, s) && c in Swept(d, why)
    ensures Mine(d, c) && c !in RoutedDuring(d, why)
    ensures forall x :: x in RoutedDuring(d, why) ==> Mine(d, x)
    ensures forall ok :: StepSafe(d, s, Step(Stop(c.id), ok)) && StepSafe(d, s, Step(Remove(c.id), ok))
  {
    if why.Discard? && c in why.targets {
      AddrIn(why.targets, c);
    }
    var routed := RoutedDuring(d, why);
    match why
    case Retire => QuietIsSafe(d, s, routed, gone, d.news, c);
    case Undo(_) => QuietIsSafe(d, s, routed, gone, [], c);
    case GiveBack(_) => QuietIsSafe(d, s, routed, d.olds + d.news, [], c);
    case Discard(_) => QuietIsSafe(d, s, routed, d.olds + d.news, [], c);
  }

  /** Stopping or removing a swept container keeps the invariant of the sweep,
      with that container among the gone. */
  lemma SweepStep(d: Deployment, l: Listing, why: Why, gone: seq<Container>, s: World, c: Container, step: Step)
    requires WellFormed(d) && SweepInv(d, l, why, gone, s) && c in Swept(d, why)
    requires step.op == Stop(c.id) || step.op == Remove(c.id)
    ensures SweepInv(d, l, why, gone + [c], Apply(s, step))
    ensures c in gone ==> SweepInv(d, l, why, gone, Apply(s, step))
  {
    SweptIsQuiet(d, l, why, gone, s, c);
    assert step == Step(Stop(c.id), step.ok) || step == Step(Remove(c.id), step.ok);
    match why
    case Retire =>
      FactsGone(d, s, d.news, [], gone, d.news, c);
      if c in gone { FactsGoneAgain(d, s, d.news, [], gone, d.news, c); }
    case Undo(_) =>
      FactsGone(d, s, d.olds, [], gone, [], c);
      if c in gone { FactsGoneAgain(d, s, d.olds, [], gone, [], c); }
    case GiveBack(_) =>
      FactsGoneAgain(d, s, d.olds, [], d.olds + d.news, [], c);
    case Discard(targets) =>
      FactsGoneAgain(d, s, targets, [], d.olds + d.news, [], c);
      forall t | t in targets ensures Trusted(d, Apply(s, step), t) {
        SameContainer(d, t, c);
      }
  }

  lemma AfterSwept(d: Deployment, l: Listing, why: Why, j: nat, s: World)
    requires WellFormed(d) && j <= |Swept(d, why)| && SweepInv(d, l, why, Swept(d, why)[..j], s)
    ensures s in Possible(d, l, SweepFrom(d, why, j))
  {
    hide Facts, Live, WellFormed;
    if j == |Swept(d, why)| {
      assert Swept(d, why)[..j] == Swept(d, why);
    }
  }

  lemma KeepsSweepStop(d: Deployment, l: Listing, why: Why, j: nat, s: World, step: Step)
    requires WellFormed(d)
    requires s in Possible(d, l, Sweep(why, j, false)) && Allowed(d, Sweep(why, j, false), step)
    ensures (s, step) in Kept(d, l, Sweep(why, j, false))
  {
    hide Facts, Live, WellFormed, SaveAgrees, Serves, SweepInv, StepSafe, Swept, NextLinear;
    hide AllowedLinear, LinearInv, GoingBack;
    var cs := Swept(d, why);
    SweptIsQuiet(d, l, why, cs[..j], s, cs[j]);
    SweepStep(d, l, why, cs[..j], s, cs[j], step);
    assert step == Step(step.op, step.ok);
    assert cs[..j] + [cs[j]] == cs[..j + 1];
  }

  lemma KeepsSweepRemove(d: Deployment, l: Listing, why: Why, j: nat, s: World, step: Step)
    requires WellFormed(d)
    requires s in Possible(d, l, Sweep(why, j, true)) && Allowed(d, Sweep(why, j, true), step)
    ensures (s, step) in Kept(d, l, Sweep(why, j, true))
  {
    hide Facts, Live, WellFormed, SaveAgrees, Serves, SweepInv, StepSafe, Swept, NextLinear;
    hide AllowedLinear, LinearInv, GoingBack;
    var cs := Swept(d, why);
    SweptIsQuiet(d, l, why, cs[..j + 1], s, cs[j]);
    assert cs[..j + 1][j] == cs[j];
    SweepStep(d, l, why, cs[..j + 1], s, cs[j], step);
    assert step == Step(step.op, step.ok);
    AfterSwept(d, l, why, j + 1, Apply(s, step));
  }

  lemma KeepsSweep(d: Deployment, l: Listing, why: Why, j: nat, removing: bool, s: World, step: Step)
    requires WellFormed(d)
    requires s in Possible(d, l, Sweep(why, j, removing)) && Allowed(d, Sweep(why, j, removing), step)
    ensures (s, step) in Kept(d, l, Sweep(why, j, removing))
  {
    hide Inv, StepSafe, WellFormed, Next, Allowed;
    if removing {
      KeepsSweepRemove(d, l, why, j, s, step);
    } else {
      KeepsSweepStop(d, l, why, j, s, step);
    }
  }

  // ------------------------------------------------------------ going back

  lemma KeepsMarkRolling(d: Deployment, l: Listing, ds: DeploymentState, s: World, step: Step)
    requires WellFormed(d)
    requires s in Possible(d, l, MarkRolling(ds)) && Allowed(d, MarkRolling(ds), step)
    ensures (s, step) in Kept(d, l, MarkRolling(ds))
  {
    hide Live, RestartUpstream, WellFormed, Serves, NextLinear, AllowedLinear, LinearInv, NextBlueGreen;
    hide AllowedBlueGreen, BlueGreenInv, GoingBack;
  }

  lemma KeepsRoll(d: Deployment, l: Listing, reason: string, s: World, step: Step)
    requires WellFormed(d)
    requires s in Possible(d, l, Roll(reason)) && Allowed(d, Roll(reason), step)
    ensures (s, step) in Kept(d, l, Roll(reason))
  {
    hide Live, SaveAgrees, Serves, Distinct, Facts, SweepInv, NextLinear, AllowedLinear, LinearInv;
    hide NextBlueGreen, AllowedBlueGreen, BlueGreenInv, GoingBack;
    if step.ok {
      LiveOfOldOnly(d, "", "");
      ServesList(d, s, step.op.upstream, d.olds);
    }
  }

  lemma KeepsRollDrain(d: Deployment, l: Listing, reason: string, s: World, step: Step)
    requires WellFormed(d)
    requires s in Possible(d, l, RollDrain(reason)) && Allowed(d, RollDrain(reason), step)
    ensures (s, step) in Kept(d, l, RollDrain(reason))
  {
    hide Live, SaveAgrees, Serves, WellFormed, NextLinear, AllowedLinear, LinearInv, NextBlueGreen;
    hide AllowedBlueGreen, BlueGreenInv, GoingBack;
    if step.ok {
      AfterSwept(d, l, GiveBack(reason), 0, Apply(s, step));
    }
  }

  lemma KeepsCloseRoll(d: Deployment, l: Listing, reason: string, s: World, step: Step)
    requires WellFormed(d)
    requires s in Possible(d, l, CloseRoll(reason)) && Allowed(d, CloseRoll(reason), step)
    ensures (s, step) in Kept(d, l, CloseRoll(reason))
  {
    hide Live, SaveAgrees, Serves, WellFormed, NextLinear, AllowedLinear, LinearInv, NextBlueGreen;
    hide AllowedBlueGreen, BlueGreenInv, GoingBack;
    if step.ok {
      NamingAgrees(d, step.op.state, s.accepted, d.olds);
    }
  }

  lemma KeepsAbort(d: Deployment, l: Listing, targets: seq<Container>, s: World, step: Step)
    requires WellFormed(d)
    requires s in Possible(d, l, Abort(targets)) && Allowed(d, Abort(targets), step)
    ensures (s, step) in Kept(d, l, Abort(targets))
  {
    hide Live, SaveAgrees, Serves, WellFormed, NextLinear, AllowedLinear, LinearInv, NextBlueGreen;
    hide AllowedBlueGreen, BlueGreenInv, GoingBack;
    if step.ok {
      LiveOfTargets(d, targets);
      ServesList(d, s, step.op.upstream, targets);
    }
  }

  lemma KeepsAbortDrain(d: Deployment, l: Listing, targets: seq<Container>, s: World, step: Step)
    requires WellFormed(d)
    requires s in Possible(d, l, AbortDrain(targets)) && Allowed(d, AbortDrain(targets), step)
    ensures (s, step) in Kept(d, l, AbortDrain(targets))
  {
    hide Live, SaveAgrees, Serves, WellFormed, NextLinear, AllowedLinear, LinearInv, NextBlueGreen;
    hide AllowedBlueGreen, BlueGreenInv, GoingBack;
    if step.ok {
      AfterSwept(d, l, Discard(targets), 0, Apply(s, step));
    }
  }

  lemma KeepsCloseAbort(d: Deployment, l: Listing, targets: seq<Container>, s: World, step: Step)
    requires WellFormed(d)
    requires s in Possible(d, l, CloseAbort(targets)) && Allowed(d, CloseAbort(targets), step)
    ensures (s, step) in Kept(d, l, CloseAbort(targets))
  {
    hide Live, SaveAgrees, Serves, WellFormed, NextLinear, AllowedLinear, LinearInv, NextBlueGreen;
    hide AllowedBlueGreen, BlueGreenInv, GoingBack;
    if step.ok {
      NamingAgrees(d, step.op.state, s.accepted, targets);
    }
  }

  // --------------------------------------------------------------- theorems

  lemma KeepsLinear(d: Deployment, l: Listing, p: Point, s: World, step: Step)
    requires WellFormed(d) && d.config.Validated() && OnLinear(p)
    requires s in Possible(d, l, p) && Allowed(d, p, step)
    ensures (s, step) in Kept(d, l, p)
  {
    hide Inv, StepSafe, WellFormed, Next;
    match p
    case Swap(i, phase) => if phase.Record? { KeepsRecord(d, l, i, s, step); }
      else { KeepsSwapPhase(d, l, i, phase, s, step); }
    case Extra(j) => KeepsExtra(d, l, j, s, step);
    case Settle => KeepsSettle(d, l, s, step);
    case SettlePlain => KeepsSettlePlain(d, l, s, step);
  }

  lemma KeepsBlueGreen(d: Deployment, l: Listing, p: Point, s: World, step: Step)
    requires WellFormed(d) && d.config.Validated() && OnBlueGreen(p)
    requires s in Possible(d, l, p) && Allowed(d, p, step)
    ensures (s, step) in Kept(d, l, p)
  {
    hide Inv, StepSafe, WellFormed, Next, Allowed;
    match p
    case Token => KeepsToken(d, l, s, step);
    case Publish(token) => KeepsPublish(d, l, token, s, step);
    case Check(j, token) => KeepsCheck(d, l, j, token, s, step);
    case Withdraw(reason) => KeepsWithdraw(d, l, reason, s, step);
    case CloseUndo(reason) => KeepsCloseUndo(d, l, reason, s, step);
    case Cutover => KeepsCutover(d, l, s, step);
    case RecordCut => KeepsRecordCut(d, l, s, step);
    case Window => KeepsWindow(d, l, s, step);
    case Soak => KeepsSoak(d, l, s, step);
  }

  lemma KeepsOther(d: Deployment, l: Listing, p: Point, s: World, step: Step)
    requires WellFormed(d) && d.config.Validated() && (OnCanary(p) || OnPromote(p) || p.Start? || p.Sweep? || p.Finish?)
    requires s in Possible(d, l, p) && Allowed(d, p, step)
    ensures (s, step) in Kept(d, l, p)
  {
    hide Inv, StepSafe, WellFormed, Next, Allowed;
    match p
    case Shift(w) => KeepsShift(d, l, w, s, step);
    case RecordShift(w) => KeepsRecordShift(d, l, w, s, step);
    case Observe(w) => KeepsObserve(d, l, w, s, step);
    case Healthy(j) => KeepsHealthy(d, l, j, s, step);
    case Promote => KeepsPromote(d, l, s, step);
    case PromoteDrain => KeepsPromoteDrain(d, l, s, step);
    case PromotePlain => KeepsPromotePlain(d, l, s, step);
    case Start => KeepsStart(d, l, s, step);
    case Sweep(why, j, removing) => KeepsSweep(d, l, why, j, removing, s, step);
    case Finish => KeepsFinish(d, l, s, step);
  }

  lemma KeepsBack(d: Deployment, l: Listing, p: Point, s: World, step: Step)
    requires WellFormed(d) && OnBack(p)
    requires s in Possible(d, l, p) && Allowed(d, p, step)
    ensures (s, step) in Kept(d, l, p)
  {
    hide Inv, StepSafe, WellFormed, Next, Allowed;
    match p
    case MarkRolling(ds) => KeepsMarkRolling(d, l, ds, s, step);
    case Roll(reason) => KeepsRoll(d, l, reason, s, step);
    case RollDrain(reason) => KeepsRollDrain(d, l, reason, s, step);
    case CloseRoll(reason) => KeepsCloseRoll(d, l, reason, s, step);
    case Abort(targets) => KeepsAbort(d, l, targets, s, step);
    case AbortDrain(targets) => KeepsAbortDrain(d, l, targets, s, step);
    case CloseAbort(targets) => KeepsCloseAbort(d, l, targets, s, step);
  }

  lemma KeepsGoingBack(d: Deployment, l: Listing, p: Point, s: World, step: Step)
    requires WellFormed(d) && GoingBack(p)
    requires s in Possible(d, l, p) && Allowed(d, p, step)
    ensures (s, step) in Kept(d, l, p) && GoingBack(Next(d, p, step))
  {
    hide Inv, StepSafe, WellFormed, Next, Allowed;
    BackGoesOn(d, p, step);
    if OnBack(p) {
      KeepsBack(d, l, p, s, step);
    } else {
      KeepsSweep(d, l, p.why, p.j, p.removing, s, step);
    }
  }

  lemma BackGoesOn(d: Deployment, p: Point, step: Step)
    requires GoingBack(p) && Allowed(d, p, step)
    ensures OnBack(p) || p.Sweep?
    ensures GoingBack(Next(d, p, step))
  {
    hide Next, Allowed;
    assert !Ended(p) by { EndsStay(d, p, step); }
    if OnBack(p) {
      BackStepGoesOn(d, p, step);
    } else {
      SweepGoesOn(d, p, step);
    }
  }

  lemma EndsStay(d: Deployment, p: Point, step: Step)
    requires Allowed(d, p, step)
    ensures !Ended(p)
  {
  }

  lemma BackStepGoesOn(d: Deployment, p: Point, step: Step)
    requires OnBack(p) && Allowed(d, p, step)
    ensures GoingBack(Next(d, p, step))
  {
    hide OldOnly, TargetUpstream, SettledState, Victims, AllowedLinear, AllowedBlueGreen, NextLinear;
    hide NextBlueGreen;
    assert GoingBack(p);
  }

  lemma SweepGoesOn(d: Deployment, p: Point, step: Step)
    requires p.Sweep? && GoingBack(p) && Allowed(d, p, step)
    ensures GoingBack(Next(d, p, step))
  {
    hide Victims, AllowedLinear, AllowedBlueGreen, AllowedBack, NextLinear, NextBlueGreen, NextBack;
  }

  /** Every step at every point keeps the promise. A rollback or an abort does
      even with settings that were never validated. */
  lemma Keeps(d: Deployment, l: Listing, p: Point, s: World, step: Step)
    requires WellFormed(d) && (d.config.Validated() || GoingBack(p))
    requires s in Possible(d, l, p) && Allowed(d, p, step)
    ensures (s, step) in Kept(d, l, p)
  {
    hide Inv, StepSafe, WellFormed, Next;
    if GoingBack(p) {
      KeepsGoingBack(d, l, p, s, step);
    } else if OnLinear(p) {
      KeepsLinear(d, l, p, s, step);
    } else if OnBlueGreen(p) {
      KeepsBlueGreen(d, l, p, s, step);
    } else {
      KeepsOther(d, l, p, s, step);
    }
  }

  /** Safety over whole runs. However a run goes (any effect failing, the context
      cancelled anywhere), every step keeps the promise: no container is stopped
      or removed while it takes traffic or, if the release drains, may hold a
      request of it, every config the proxy accepts serves only running containers
      that are old or passed their health check, and every saved state agrees with
      what the proxy serves. */
  lemma {:induction false} RunIsSafe(d: Deployment, l: Listing, entry: Point, start: World, log: Log)
    requires WellFormed(d) && (d.config.Validated() || GoingBack(entry))
    requires start in Possible(d, l, entry) && Path(d, entry, log).Some?
    ensures EveryStepSafe(d, start, log)
    ensures Replay(start, log) in Possible(d, l, Path(d, entry, log).value)
    ensures GoingBack(entry) ==> GoingBack(Path(d, entry, log).value)
  {
    hide Inv, StepSafe, WellFormed, Next, Allowed, GoingBack;
    if log.Then? {
      RunIsSafe(d, l, entry, start, log.before);
      var p := Path(d, entry, log.before).value;
      Keeps(d, l, p, Replay(start, log.before), log.last);
      if GoingBack(entry) {
        KeepsGoingBack(d, l, p, Replay(start, log.before), log.last);
      }
    }
  }

  lemma StillServes(d: Deployment, s: World, step: Step)
    requires Serves(d, s, s.accepted) && StepSafe(d, s, step)
    ensures Serves(d, Apply(s, step), Apply(s, step).accepted)
  {
    var after := Apply(s, step);
    if !(step.ok && step.op.Configure?) {
      forall a | a in Live(s.accepted.servers) ensures exists c :: Trusted(d, after, c) && c.addr == a {
        var c :| Trusted(d, s, c) && c.addr == a;
        assert Trusted(d, after, c);
      }
    } else {
      forall a | a in Live(after.accepted.servers) ensures exists c :: Trusted(d, after, c) && c.addr == a {
        var c :| Trusted(d, s, c) && c.addr == a;
        assert Trusted(d, after, c);
      }
    }
  }

  /** At every point of every run, crash points included, some server takes
      traffic and none that does has been stopped or removed. */
  lemma {:induction false} TrafficIsServed(d: Deployment, start: World, log: Log, p: Log)
    requires Serves(d, start, start.accepted) && EveryStepSafe(d, start, log) && Prefix(p, log)
    ensures Serves(d, Replay(start, p), Replay(start, p).accepted)
    decreases log
  {
    if p != log {
      TrafficIsServed(d, start, log.before, p);
    } else if log.Then? {
      TrafficIsServed(d, start, log.before, log.before);
      StillServes(d, Replay(start, log.before), log.last);
    }
  }

  lemma ReadyServes(d: Deployment, start: World)
    requires WellFormed(d) && Ready(d, start)
    ensures Serves(d, start, start.accepted)
  {
    ServesList(d, start, start.accepted, d.olds);
  }
}
