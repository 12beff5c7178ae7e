/** What the controller does when a release fails: it works out from the saved
    state which containers should serve, points the proxy at them, and removes
    the new containers that are not among them. */
module AbortRun {
  import opened Rollout
  import opened Machine
  import opened Promise
  import opened Safety
  import opened Platform
  import opened SharedSteps

  /** Containers by id; of two with the same id the later one counts. */
  function Index(cs: seq<Container>): map<string, Container> {
    if cs == [] then map[] else Index(cs[..|cs| - 1])[cs[|cs| - 1].id := cs[|cs| - 1]]
  }

  /** The listed containers that are known and still exist, in listed order. */
  function Surviving(known: map<string, Container>, ids: seq<string>, existing: set<string>): seq<Container> {
    if ids == [] then []
    else
      var id := ids[|ids| - 1];
      Surviving(known, ids[..|ids| - 1], existing) +
        (if id in known && known[id].id in existing then [known[id]] else [])
  }

  /** The containers an abort goes back to: those on record, or the old ones when
      the record lists none. */
  function Targets(d: Deployment, s: World): seq<Container> {
    Surviving(Index(d.olds + d.news), if s.saved.stable == [] then Ids(d.olds) else s.saved.stable, s.existing)
  }

  method IndexContainers(d: Deployment) returns (m: map<string, Container>)
    ensures m == Index(d.olds + d.news)
  {
    m := map[];
    for i := 0 to |d.olds|
      invariant m == Index(d.olds[..i])
    {
      assert d.olds[..i + 1][..i] == d.olds[..i];
      m := m[d.olds[i].id := d.olds[i]];
    }
    assert d.olds[..|d.olds|] == d.olds + d.news[..0];
    for i := 0 to |d.news|
      invariant m == Index(d.olds + d.news[..i])
    {
      var cs := d.olds + d.news[..i + 1];
      assert cs[..|cs| - 1] == d.olds + d.news[..i];
      m := m[d.news[i].id := d.news[i]];
    }
    assert d.news[..|d.news|] == d.news;
  }

  method AbortTargets(w: Platform, d: Deployment) returns (ok: bool, targets: seq<Container>)
    modifies w`bars
    ensures w.bars == old(w.bars) + if ok then 0 else 1
    ensures ok ==> targets == Targets(d, w.Now())
  {
    hide Index, Replay;
    var ds: DeploymentState;
    ok, ds := w.Load();
    if !ok {
      return false, [];
    }
    var known := IndexContainers(d);
    var ids := ds.stable;
    if |ids| == 0 {
      ids := Ids(d.olds);
    }
    targets := [];
    for i := 0 to |ids|
      invariant targets == Surviving(known, ids[..i], w.existing)
    {
      assert ids[..i + 1][..i] == ids[..i];
      if ids[i] in known && known[ids[i]].id in w.existing {
        targets := targets + [known[ids[i]]];
      }
    }
    assert ids[..|ids|] == ids;
  }

  /** Removes the new containers that do not serve. */
  method DiscardOthers(w: Platform, d: Deployment, targets: seq<Container>)
    requires AtPoint(w, d, Abort(targets), SweepFrom(d, Discard(targets), 0))
    modifies w
    ensures w.start == old(w.start) && w.bars == old(w.bars)
    ensures AtPoint(w, d, Abort(targets), CloseAbort(targets))
  {
    hide Path, Follow, Edge, LooseEdge, Replay;
    var targetIds := set id | id in Ids(targets);
    ghost var j := 0;
    for i := 0 to |d.news|
      invariant w.start == old(w.start) && w.bars == old(w.bars)
      invariant j <= |Victims(d.news, targets)| && Victims(d.news, targets)[j..] == Victims(d.news[i..], targets)
      invariant AtPoint(w, d, Abort(targets), SweepFrom(d, Discard(targets), j))
    {
      assert d.news[i..][1..] == d.news[i + 1..];
      if d.news[i].id in targetIds {
        continue;
      }
      assert Victims(d.news, targets)[j] == Victims(d.news, targets)[j..][0];
      SweepEdges(d, Discard(targets), j);
      var _ := w.Stop(d.news[i].id);
      Despite(d, Abort(targets), w.log, Sweep(Discard(targets), j, false), Sweep(Discard(targets), j, true));
      var _ := w.Remove(d.news[i].id);
      Despite(d, Abort(targets), w.log, Sweep(Discard(targets), j, true), SweepFrom(d, Discard(targets), j + 1));
      j := j + 1;
      assert Victims(d.news, targets)[j..] == Victims(d.news, targets)[j - 1..][1..];
    }
    assert |Victims(d.news, targets)[j..]| == 0;
  }

  lemma AbortWrites(d: Deployment, targets: seq<Container>)
    ensures
      ApplySettings(d.config,
                    Upstream(d.service, d.UpstreamName(), Plain(targets), d.config.affinity, 0, "", [], ""))
         == TargetUpstream(d, targets)
    ensures DeploymentState(d.service, Idle, d.strategy.Tag(), 0, Ids(targets), [], "", "", "") ==
      SettledState(d, targets, "")
  {
  }

  /** Goes back to what the saved state lists. Fails at once, with nothing
      changed, when none of it is left, and otherwise only if the state cannot be
      read or an effect fails. */
  method AbortDeployment(w: Platform, d: Deployment) returns (ok: bool, ghost targets: seq<Container>)
    modifies w
    ensures w.start == old(w.Now()) && targets == Targets(d, w.start)
    ensures if ok then targets != [] && AtPoint(w, d, Abort(targets), Aborted(targets))
      else w.Valid() && Short(Path(d, Abort(targets), w.log))
    ensures targets == [] ==> !ok && w.Now() == old(w.Now())
    ensures old(w.bars) <= w.bars && (!ok ==> targets == [] || w.bars > old(w.bars) || !AllTook(w.log))
  {
    hide Path, Follow, Edge, LooseEdge, Replay, Short, TargetUpstream, SettledState, ApplySettings, Plain;
    w.NextRun();
    targets := Targets(d, w.Now());
    Begin(d, Abort(targets));
    Unfinished(Abort(targets));
    var serving;
    ok, serving := AbortTargets(w, d);
    if !ok || |serving| == 0 {
      return false, targets;
    }
    AbortEdges(d, targets);
    var servers := ListServers([], serving, false);
    assert servers == Plain(serving);
    AbortWrites(d, targets);
    var upstream := Upstream(d.service, d.UpstreamName(), servers, d.config.affinity, 0, "", [], "");
    upstream := ApplySettings(d.config, upstream);
    ok := ApplyConfig(w, upstream);
    Along(d, Abort(targets), w.log, Abort(targets), AbortDrain(targets));
    if !ok { return; }

    ok := w.Wait(d.config.drain);
    Along(d, Abort(targets), w.log, AbortDrain(targets), SweepFrom(d, Discard(targets), 0));
    if !ok { return; }

    DiscardOthers(w, d, serving);

    var ds := DeploymentState(d.service, Idle, d.strategy.Tag(), 0, Ids(serving), [], "", "", "");
    ok := w.Save(ds);
    Along(d, Abort(targets), w.log, CloseAbort(targets), Aborted(targets));
  }

  // ------------------------------------------------- what the targets are

  function Left(cs: seq<Container>, existing: set<string>): seq<Container> {
    if cs == [] then []
    else
      var last := cs[|cs| - 1];
      Left(cs[..|cs| - 1], existing) + (if last.id in existing then [last] else [])
  }

  lemma {:induction false} LeftHas(cs: seq<Container>, existing: set<string>)
    ensures forall c :: c in Left(cs, existing) <==> c in cs && c.id in existing
  {
    if cs != [] {
      LeftHas(cs[..|cs| - 1], existing);
      assert cs == cs[..|cs| - 1] + [cs[|cs| - 1]];
    }
  }

  lemma {:induction false} LeftConcat(a: seq<Container>, b: seq<Container>, existing: set<string>)
    ensures Left(a + b, existing) == Left(a, existing) + Left(b, existing)
  {
    if b == [] {
      assert a + b == a;
    } else {
      assert (a + b)[..|a + b| - 1] == a + b[..|b| - 1];
      LeftConcat(a, b[..|b| - 1], existing);
    }
  }

  lemma {:induction false} LeftAll(cs: seq<Container>, existing: set<string>)
    requires forall c :: c in cs ==> c.id in existing
    ensures Left(cs, existing) == cs
  {
    if cs != [] {
      LeftAll(cs[..|cs| - 1], existing);
    }
  }

  lemma {:induction false} IndexFinds(cs: seq<Container>, c: Container)
    requires c in cs && forall x :: x in cs ==> (x.id == c.id <==> x == c)
    ensures c.id in Index(cs) && Index(cs)[c.id] == c
  {
    var k := |cs| - 1;
    assert cs[k] in cs;
    if cs[k] != c {
      IndexFinds(cs[..k], c);
    }
  }

  /** Of containers with the same id the last one counts. */
  lemma {:induction false} IndexIsLast(cs: seq<Container>, k: nat)
    requires k < |cs| && forall j :: k < j < |cs| ==> cs[j].id != cs[k].id
    ensures cs[k].id in Index(cs) && Index(cs)[cs[k].id] == cs[k]
  {
    if k < |cs| - 1 {
      IndexIsLast(cs[..|cs| - 1], k);
    }
  }

  lemma IndexIs(d: Deployment, c: Container)
    requires WellFormed(d) && Mine(d, c)
    ensures c.id in Index(d.olds + d.news) && Index(d.olds + d.news)[c.id] == c
  {
    forall x | x in d.olds + d.news ensures x.id == c.id <==> x == c {
      SameContainer(d, x, c);
    }
    IndexFinds(d.olds + d.news, c);
  }

  lemma {:induction false} SurvivingOf(d: Deployment, cs: seq<Container>, existing: set<string>)
    requires WellFormed(d) && forall c :: c in cs ==> Mine(d, c)
    ensures Surviving(Index(d.olds + d.news), Ids(cs), existing) == Left(cs, existing)
  {
    hide Index, WellFormed;
    if cs != [] {
      IndexIs(d, cs[|cs| - 1]);
      assert Ids(cs)[..|cs| - 1] == Ids(cs[..|cs| - 1]);
      SurvivingOf(d, cs[..|cs| - 1], existing);
    }
  }

  /** How many replacements a linear release had on record at a point. */
  function Recorded(d: Deployment, p: Point): (k: nat)
    ensures k <= d.Replacements()
    decreases p
  {
    match p
    case Failed(at) => Recorded(d, at)
    case Swap(i, _) => if i < d.Replacements() then i else 0
    case Extra(_) => d.Replacements()
    case Settle => d.Replacements()
    case SettlePlain => d.Replacements()
    case Finish => d.Replacements()
    case _ => 0
  }

  /** Whether a release at this point has saved its first state and not its last. */
  predicate Midway(p: Point)
    decreases p
  {
    if p.Failed? then Midway(p.at)
    else
      && !p.Start? && !p.Done? && !p.RolledBack? && !p.MarkRolling? && !p.Aborted?
      && !p.Abort? && !p.AbortDrain? && !p.CloseAbort? && !(p.Sweep? && p.why.Discard?)
  }

  /** The first `k` replacements, the old container next in line if it is still
      there, and the old ones after it. */
  function Expected(d: Deployment, k: nat, existing: set<string>): seq<Container>
    requires k <= d.Replacements()
  {
    if k < d.Replacements() then
      d.news[..k] + (if d.olds[k].id in existing then [d.olds[k]] else []) + d.olds[k + 1..]
    else d.news[..k]
  }

  lemma LeftExpected(d: Deployment, i: nat, existing: set<string>)
    requires i < d.Replacements()
    requires forall c :: c in d.news[..i] + d.olds[i + 1..] ==> c.id in existing
    ensures Left(d.news[..i] + d.olds[i..], existing) == Expected(d, i, existing)
  {
    assert d.news[..i] + d.olds[i..] == d.news[..i] + [d.olds[i]] + d.olds[i + 1..];
    LeftConcat(d.news[..i] + [d.olds[i]], d.olds[i + 1..], existing);
    LeftConcat(d.news[..i], [d.olds[i]], existing);
    LeftAll(d.news[..i], existing);
    LeftAll(d.olds[i + 1..], existing);
    assert [d.olds[i]][..0] == [];
  }

  lemma SwapTargets(d: Deployment, i: nat, phase: Phase, s: World)
    requires WellFormed(d) && i < d.Replacements() && SwapInv(d, i, phase, s)
    ensures Targets(d, s) == Expected(d, i, s.existing)
  {
    hide Live, WellFormed, Index, Left, Surviving, Expected;
    var cs := d.news[..i] + d.olds[i..];
    SwapSlices(d, i);
    forall c | c in d.news[..i] + d.olds[i + 1..] ensures c.id in s.existing {
      assert c in d.news[..i + 1] + d.olds[i + 1..];
      assert s.Usable(c);
    }
    LeftExpected(d, i, s.existing);
    assert s.saved.stable == Ids(cs);
    SurvivingOf(d, cs, s.existing);
  }

  lemma RecordedTargets(d: Deployment, s: World)
    requires WellFormed(d) && SwapMid(d, s, d.Replacements())
    requires forall c :: c in d.news ==> s.Usable(c)
    ensures Targets(d, s) == d.news[..d.Replacements()]
  {
    hide Distinct, Index;
    var cs := d.news[..d.Replacements()];
    assert |Ids(cs)| > 0 && s.saved.stable == Ids(cs) by { assert d.Replacements() > 0; }
    SurvivingOf(d, cs, s.existing);
    LeftAll(cs, s.existing);
  }

  /** Wherever a linear release stops, the abort goes back to the replacements on
      record and the old containers not yet replaced, less at most the one whose
      removal was not yet on record. */
  lemma LinearTargets(d: Deployment, l: Listing, p: Point, s: World)
    requires WellFormed(d) && d.strategy.Linear? && s in Possible(d, l, p)
    requires Midway(p) && !GoingBack(p)
    ensures Targets(d, s) == Expected(d, Recorded(d, p), s.existing)
    decreases p
  {
    hide Live, WellFormed, Targets, Expected, SwapInv, SwapMid;
    if p.Failed? {
      LinearTargets(d, l, p.at, s);
    } else if p.Swap? {
      SwapTargets(d, p.i, p.phase, s);
    } else {
      LinearTail(d, l, p, s);
    }
  }

  lemma NotOld(d: Deployment, k: nat)
    requires WellFormed(d) && k <= |d.olds|
    ensures forall c :: c in d.news ==> c !in d.olds[..k]
  {
    forall c | c in d.news ensures c !in d.olds[..k] {
      forall i | 0 <= i < k ensures d.olds[i] != c {
        assert d.olds[i] in d.olds;
      }
    }
  }

  lemma LinearTail(d: Deployment, l: Listing, p: Point, s: World)
    requires WellFormed(d) && d.strategy.Linear? && s in Possible(d, l, p)
    requires p.Extra? || p.Settle? || p.SettlePlain? || p.Finish?
    ensures Targets(d, s) == Expected(d, Recorded(d, p), s.existing)
  {
    hide Live, Targets, SwapMid, WellFormed;
    NotOld(d, d.Replacements());
    RecordedTargets(d, s);
  }

  /** Wherever a blue-green or canary release stops, the abort goes back to the
      old containers that still exist. */
  lemma SetTargets(d: Deployment, l: Listing, p: Point, s: World)
    requires WellFormed(d) && !d.strategy.Linear? && s in Possible(d, l, p) && l == OwnListing(d)
    requires Midway(p)
    ensures Targets(d, s) == Left(d.olds, s.existing)
    decreases p
  {
    hide Live, WellFormed, Facts, PromoteInv, CanaryInv, BlueGreenInv;
    if p.Failed? {
      SetTargets(d, l, p.at, s);
    } else {
      assert s.saved.stable == Ids(d.olds);
      SurvivingOf(d, d.olds, s.existing);
    }
  }

  // --------------------------------------------------- when an abort is safe

  lemma TrustedTargets(d: Deployment, i: nat, phase: Phase, s: World)
    requires WellFormed(d) && i < d.Replacements() && SwapInv(d, i, phase, s)
    ensures forall c :: c in d.news[..i] + d.olds[i + 1..] ==> Trusted(d, s, c)
  {
    hide Live, WellFormed;
    SwapSlices(d, i);
    forall c | c in d.news[..i] + d.olds[i + 1..] ensures Trusted(d, s, c) {
      assert c in d.news[..i + 1] + d.olds[i + 1..];
      assert c in d.news[..i] ==> c in d.news[..i + 1];
    }
  }

  lemma SwapAbortExactly(d: Deployment, i: nat, phase: Phase, s: World)
    requires WellFormed(d) && i < d.Replacements() && SwapInv(d, i, phase, s)
    ensures GoodTargets(d, s, Expected(d, i, s.existing)) <==>
      && (d.olds[i].id in s.existing ==> d.olds[i].id !in s.stopped)
      && (i > 0 || |d.olds| > 1 || d.olds[i].id in s.existing)
  {
    hide Live, WellFormed, SwapInv;
    TrustedTargets(d, i, phase, s);
    assert d.olds[i] in d.olds;
    var ts := Expected(d, i, s.existing);
    var here := if d.olds[i].id in s.existing then [d.olds[i]] else [];
    assert ts == d.news[..i] + here + d.olds[i + 1..];
    assert d.olds[i].id in s.existing ==> ts[i] == d.olds[i];
    forall t | t in ts ensures (t == d.olds[i] && d.olds[i].id in s.existing) || Trusted(d, s, t) {
      if t !in here {
        assert t in d.news[..i] + d.olds[i + 1..];
      }
    }
    assert Trusted(d, s, d.olds[i]) <==> d.olds[i].id in s.existing && d.olds[i].id !in s.stopped;
    assert ts == [] <==> i == 0 && |d.olds| == 1 && d.olds[i].id !in s.existing;
  }

  /** An abort of a linear release is safe at every point but for one container,
      the old one of the first replacement not on record: it must not be a
      container that was stopped and could not be removed, and if it is gone some
      other target must be left. */
  lemma LinearAbortExactly(d: Deployment, l: Listing, p: Point, s: World)
    requires WellFormed(d) && d.strategy.Linear? && s in Possible(d, l, p)
    requires Midway(p) && !GoingBack(p)
    ensures var k := Recorded(d, p);
      GoodTargets(d, s, Targets(d, s)) <==>
        (k < d.Replacements() ==>
          && (d.olds[k].id in s.existing ==> d.olds[k].id !in s.stopped)
          && (k > 0 || |d.olds| > 1 || d.olds[k].id in s.existing))
    decreases p
  {
    hide Live, WellFormed, Targets, SwapInv, SwapMid, Expected, GoodTargets;
    if p.Failed? {
      LinearAbortExactly(d, l, p.at, s);
    } else {
      LinearTargets(d, l, p, s);
      if p.Swap? {
        SwapAbortExactly(d, p.i, p.phase, s);
      } else {
        LinearTailTrusted(d, l, p, s);
        AllReplaced(d, s.existing);
      }
    }
  }

  lemma AllReplaced(d: Deployment, existing: set<string>)
    ensures Expected(d, d.Replacements(), existing) == d.news[..d.Replacements()]
  {
  }

  lemma LinearTailTrusted(d: Deployment, l: Listing, p: Point, s: World)
    requires WellFormed(d) && d.strategy.Linear? && s in Possible(d, l, p)
    requires p.Extra? || p.Settle? || p.SettlePlain? || p.Finish?
    ensures GoodTargets(d, s, d.news[..d.Replacements()])
  {
    hide Live, SwapMid, WellFormed;
    var r := d.Replacements();
    NotOld(d, r);
    Nonempty(d);
    assert d.news[..r] != [] by { assert |d.news[..r]| == r; }
    forall c | c in d.news[..r] ensures Trusted(d, s, c) {
      assert p.Extra? ==> c in d.news[..p.j];
    }
  }

  /** An abort of a blue-green or canary release is safe exactly when an old
      container is left and none that is left was stopped. */
  lemma SetAbortExactly(d: Deployment, l: Listing, p: Point, s: World)
    requires WellFormed(d) && !d.strategy.Linear? && s in Possible(d, l, p) && l == OwnListing(d)
    requires Midway(p)
    ensures GoodTargets(d, s, Targets(d, s)) <==>
      (exists o :: o in d.olds && o.id in s.existing) &&
        (forall o :: o in d.olds && o.id in s.existing ==> o.id !in s.stopped)
  {
    hide Targets, Possible, WellFormed;
    SetTargets(d, l, p, s);
    LeftHas(d.olds, s.existing);
    assert forall o :: o in d.olds && o.id in s.existing ==> o in Left(d.olds, s.existing);
    if Left(d.olds, s.existing) != [] {
      assert Left(d.olds, s.existing)[0] in d.olds;
    }
  }

  /** Before any old container is removed, an abort of a blue-green or canary
      release is always safe and goes back to all of them. */
  lemma SetAbortBeforeRetiring(d: Deployment, l: Listing, p: Point, s: World)
    requires WellFormed(d) && !d.strategy.Linear? && s in Possible(d, l, p) && l == OwnListing(d)
    requires Midway(p) && AllUsable(s, d.olds)
    ensures Targets(d, s) == d.olds && GoodTargets(d, s, d.olds)
  {
    hide Targets, Possible, Distinct;
    SetTargets(d, l, p, s);
    LeftAll(d.olds, s.existing);
  }

  /** When not even the first state of the release was saved, the record still
      lists nothing, or the old containers. */
  lemma AbortAtOnce(d: Deployment, s: World)
    requires WellFormed(d) && Ready(d, s) && (s.saved.stable == [] || s.saved.stable == Ids(d.olds))
    ensures Targets(d, s) == d.olds && GoodTargets(d, s, d.olds)
  {
    hide Live, Distinct, Index, Surviving, Left;
    SurvivingOf(d, d.olds, s.existing);
    LeftAll(d.olds, s.existing);
  }

  /** An abort with these targets stays on its own points, and stops or removes
      nothing but the new containers that are not targets. */
  lemma {:induction false} AbortStays(d: Deployment, targets: seq<Container>, log: Log)
    requires Path(d, Abort(targets), log).Some?
    ensures TouchesOnly(log, IdSet(Victims(d.news, targets)))
    ensures var p := Path(d, Abort(targets), log).value;
      || p == Abort(targets) || p == AbortDrain(targets) || p == CloseAbort(targets) || p == Aborted(targets)
      || p.Failed? || (p.Sweep? && p.why == Discard(targets))
  {
    hide Victims, StepUpstream, TargetUpstream, SettledState;
    if log.Then? {
      AbortStays(d, targets, log.before);
      AbortStep(d, targets, Path(d, Abort(targets), log.before).value, log.last);
    }
  }

  lemma AbortStep(d: Deployment, targets: seq<Container>, p: Point, step: Step)
    requires Allowed(d, p, step)
    requires p == Abort(targets) || p == AbortDrain(targets) || p == CloseAbort(targets) ||
      (p.Sweep? && p.why == Discard(targets))
    ensures var q := Next(d, p, step);
      || q == AbortDrain(targets) || q == CloseAbort(targets) || q == Aborted(targets)
      || q.Failed? || (q.Sweep? && q.why == Discard(targets))
    ensures step.op.Stop? || step.op.Remove? ==> step.op.id in IdSet(Victims(d.news, targets))
  {
    hide Victims, TargetUpstream, SettledState;
  }

  /** What holds at each point of an abort, whatever its targets are. */
  ghost predicate AbortFacts(d: Deployment, targets: seq<Container>, p: Point, s: World) {
    !p.Failed? ==>
      && (!p.Abort? ==> Live(s.accepted.servers) == Addrs(targets))
      && (!p.Abort? && !p.AbortDrain? && d.Drains() ==> Quiet(s, targets))
      && (p.Aborted? ==> s.saved == SettledState(d, targets, ""))
  }

  lemma AbortGoesOn(d: Deployment, targets: seq<Container>, p: Point, s: World, step: Step)
    requires Allowed(d, p, step) && AbortFacts(d, targets, p, s)
    requires p == Abort(targets) || p == AbortDrain(targets) || p == CloseAbort(targets) ||
      (p.Sweep? && p.why == Discard(targets))
    ensures AbortFacts(d, targets, Next(d, p, step), Apply(s, step))
  {
    hide Victims, TargetUpstream, SettledState, Live, GoingBack, AllowedLinear, AllowedBlueGreen;
    hide NextLinear, NextBlueGreen;
    LiveOfTargets(d, targets);
  }

  lemma NotOver(d: Deployment, p: Point, step: Step)
    requires Allowed(d, p, step)
    ensures !Ended(p)
  {
  }

  lemma {:induction false} AbortFactsHold(d: Deployment, targets: seq<Container>, s: World, log: Log)
    requires Path(d, Abort(targets), log).Some?
    ensures AbortFacts(d, targets, Path(d, Abort(targets), log).value, Replay(s, log))
  {
    hide AbortFacts, Next, Allowed, Apply, TouchesOnly;
    if log.Then? {
      var p := Path(d, Abort(targets), log.before).value;
      AbortFactsHold(d, targets, s, log.before);
      AbortStays(d, targets, log.before);
      NotOver(d, p, log.last);
      AbortGoesOn(d, targets, p, Replay(s, log.before), log.last);
    } else {
      AbortFactsBegin(d, targets, s);
    }
  }

  lemma AbortFactsBegin(d: Deployment, targets: seq<Container>, s: World)
    ensures AbortFacts(d, targets, Abort(targets), s)
  {
  }

  /** An abort that succeeds leaves the proxy with exactly its targets, no request
      anywhere else if the release drains, and an idle state that names them,
      whatever its targets are. */
  lemma AbortEndsAtTargets(d: Deployment, s: World, targets: seq<Container>, log: Log)
    requires Path(d, Abort(targets), log) == Some(Aborted(targets))
    ensures var after := Replay(s, log);
      Routed(d, after, targets) && after.saved == SettledState(d, targets, "")
  {
    hide Path, Replay, Live, SettledState;
    AbortFactsHold(d, targets, s, log);
  }

  predicate AllProven(d: Deployment, s: World, cs: seq<Container>) {
    forall c :: c in cs ==> Proven(d, s, c)
  }

  predicate AllFit(d: Deployment, s: World, cs: seq<Container>) {
    forall c :: c in cs ==> Fit(d, s, c)
  }

  lemma TargetsServe(d: Deployment, s: World, targets: seq<Container>)
    requires targets != [] && AllProven(d, s, targets)
    ensures ServesProven(d, s, TargetUpstream(d, targets))
  {
    hide Live, TargetUpstream;
    LiveOfTargets(d, targets);
    assert |Addrs(targets)| > 0;
    forall a | a in Addrs(targets) ensures exists c :: Proven(d, s, c) && c.addr == a {
      var c := OfAddr(targets, a);
    }
  }

  /** A container that is not a target has no address of one. */
  lemma NoTarget(d: Deployment, s: World, targets: seq<Container>, v: Container)
    requires WellFormed(d) && AllProven(d, s, targets) && Mine(d, v) && v.id !in Ids(targets)
    requires Routed(d, s, targets)
    ensures forall c :: Mine(d, c) && c.id == v.id ==> Idles(d, s, c)
  {
    hide Live;
    forall c | Mine(d, c) && c.id == v.id ensures c.addr !in Addrs(targets) {
      SameContainer(d, c, v);
      forall i | 0 <= i < |targets| ensures Addrs(targets)[i] != v.addr {
        assert targets[i] in targets && Ids(targets)[i] == targets[i].id;
        SameContainer(d, targets[i], v);
      }
    }
  }

  lemma AbortStepFits(d: Deployment, targets: seq<Container>, p: Point, s: World, step: Step)
    requires WellFormed(d) && targets != [] && AllProven(d, s, targets)
    requires Allowed(d, p, step) && AbortFacts(d, targets, p, s)
    requires p == Abort(targets) || p == AbortDrain(targets) || p == CloseAbort(targets) ||
      (p.Sweep? && p.why == Discard(targets))
    ensures StepFits(d, s, step)
  {
    hide WellFormed, TargetUpstream, SettledState, Live, ServesProven, SaveAgrees, AllowedLinear;
    hide AllowedBlueGreen, GoingBack;
    if p.Abort? {
      TargetsServe(d, s, targets);
    } else if p.Sweep? {
      NoTarget(d, s, targets, Victims(d.news, targets)[p.j]);
    } else if p.CloseAbort? && step.ok {
      assert SaveAgrees(d, step.op.state, s.accepted) by { SettledAgrees(d, targets, s.accepted); }
    }
  }

  lemma SettledAgrees(d: Deployment, cs: seq<Container>, u: Upstream)
    requires Live(u.servers) == Addrs(cs) && forall c :: c in cs ==> Mine(d, c)
    ensures SaveAgrees(d, SettledState(d, cs, ""), u)
  {
    hide Live, SaveAgrees;
    NamingAgrees(d, SettledState(d, cs, ""), u, cs);
  }

  lemma StillProven(d: Deployment, s: World, step: Step)
    ensures forall c :: Proven(d, s, c) ==> Proven(d, Apply(s, step), c)
  {
  }

  lemma StillServesProven(d: Deployment, s: World, step: Step)
    requires ServesProven(d, s, s.accepted) && StepFits(d, s, step)
    ensures ServesProven(d, Apply(s, step), Apply(s, step).accepted)
  {
    hide Live;
    StillProven(d, s, step);
    var after := Apply(s, step);
    forall a | a in Live(after.accepted.servers) ensures exists c :: Proven(d, after, c) && c.addr == a {
      var c :| Proven(d, s, c) && c.addr == a;
      assert Proven(d, after, c);
    }
  }

  lemma {:induction false} EveryAbortStepFits(d: Deployment, s: World, targets: seq<Container>, log: Log)
    requires WellFormed(d) && targets != [] && AllProven(d, s, targets)
    requires Path(d, Abort(targets), log).Some?
    ensures EveryStepFits(d, s, log) && AllProven(d, Replay(s, log), targets)
    ensures ServesProven(d, s, s.accepted) ==> ServesProven(d, Replay(s, log), Replay(s, log).accepted)
  {
    hide WellFormed, AbortFacts, Next, Allowed, Apply, StepFits, ServesProven, TouchesOnly, Proven;
    if log.Then? {
      var p, now := Path(d, Abort(targets), log.before).value, Replay(s, log.before);
      EveryAbortStepFits(d, s, targets, log.before);
      AbortFactsHold(d, targets, s, log.before);
      AbortStays(d, targets, log.before);
      NotOver(d, p, log.last);
      AbortStepFits(d, targets, p, now, log.last);
      StillProven(d, now, log.last);
      if ServesProven(d, s, s.accepted) {
        StillServesProven(d, now, log.last);
      }
    }
  }

  lemma {:induction false} UntouchedStay(start: World, log: Log, ids: set<string>, id: string)
    requires TouchesOnly(log, ids) && id !in ids
    ensures id in start.existing ==> id in Replay(start, log).existing
    ensures id !in start.stopped ==> id !in Replay(start, log).stopped
  {
    if log.Then? {
      UntouchedStay(start, log.before, ids, id);
    }
  }

  lemma AbortStart(d: Deployment, l: Listing, targets: seq<Container>, s: World)
    requires GoodTargets(d, s, targets)
    ensures s in Possible(d, l, Abort(targets))
  {
  }

  /** An abort keeps the promise whatever fails, if every container it goes back to
      is an old one or passed its health check. It gives traffic to its targets and
      to nothing else; it stops or removes only new containers that are not
      targets, and none that takes traffic or, if the release drains, may hold a
      request of it; and what it saves agrees with the proxy. If its targets also run, so do all containers
      that ever take traffic. */
  lemma AbortIsSafe(d: Deployment, l: Listing, s: World, targets: seq<Container>, log: Log)
    requires WellFormed(d) && targets != [] && AllProven(d, s, targets)
    requires Path(d, Abort(targets), log).Some?
    ensures EveryStepFits(d, s, log) && (GoodTargets(d, s, targets) ==> EveryStepSafe(d, s, log))
    ensures ServesProven(d, s, s.accepted) ==> ServesProven(d, Replay(s, log), Replay(s, log).accepted)
    ensures TouchesOnly(log, IdSet(d.news) - set id | id in Ids(targets))
    ensures forall t :: t in targets ==>
      && Proven(d, Replay(s, log), t)
      && (t.id in s.existing ==> t.id in Replay(s, log).existing)
      && (s.Usable(t) ==> Replay(s, log).Usable(t))
  {
    hide Inv, WellFormed, EveryStepSafe, EveryStepFits, ServesProven, Path, TouchesOnly, Live, Victims, Replay;
    hide Proven;
    var others := IdSet(d.news) - set id | id in Ids(targets);
    EveryAbortStepFits(d, s, targets, log);
    AbortStays(d, targets, log);
    TouchesFewer(log, IdSet(Victims(d.news, targets)), others);
    forall t | t in targets
      ensures (t.id in s.existing ==> t.id in Replay(s, log).existing) && (s.Usable(t) ==> Replay(s, log).Usable(t))
    {
      AddrIn(targets, t);
      UntouchedStay(s, log, others, t.id);
    }
    if GoodTargets(d, s, targets) {
      AbortStart(d, l, targets, s);
      RunIsSafe(d, l, Abort(targets), s, log);
    }
  }

  lemma {:induction false} TouchesFewer(log: Log, few: set<string>, many: set<string>)
    requires TouchesOnly(log, few) && few <= many
    ensures TouchesOnly(log, many)
  {
    if log.Then? {
      TouchesFewer(log.before, few, many);
    }
  }

  /** A run whose first old container stops but cannot be removed, and whose first
      replacement then cannot be put on record. */
  function StuckLog(d: Deployment): Log
    requires d.Replacements() > 0
  {
    var routed := Then(Then(Then(Empty, Step(Save(FreshState(d)), true)), Step(WaitHealthy(d.news[0].id), true)),
      Step(Configure(StepUpstream(d, 0)), true));
    var stopped := Then(Then(routed, Step(Pause(d.config.drain), true)), Step(Stop(d.olds[0].id), true));
    Then(Then(stopped, Step(Remove(d.olds[0].id), false)), Step(Save(SwapState(d, 1)), false))
  }

  lemma StuckIsARun(d: Deployment)
    requires d.Replacements() > 0 && d.strategy.Linear?
    ensures Path(d, Start, StuckLog(d)) == Some(Failed(Swap(0, Record)))
  {
    hide Path, Follow, Edge, LooseEdge;
    LinearEdges(d);
    SwapEdges(d, 0);
    RecordEdge(d, 0);
    Begin(d, Start);
    var log := StuckLog(d);
    var kept := log.before;
    var stopped := kept.before;
    var drained := stopped.before;
    var routed := drained.before;
    var healthy := routed.before;
    Along(d, Start, healthy.before, Start, Swap(0, Health));
    Along(d, Start, healthy, Swap(0, Health), Swap(0, Route));
    Along(d, Start, routed, Swap(0, Route), Swap(0, DrainOld));
    Along(d, Start, drained, Swap(0, DrainOld), Swap(0, StopOld));
    Despite(d, Start, stopped, Swap(0, StopOld), Swap(0, RemoveOld));
    Despite(d, Start, kept, Swap(0, RemoveOld), Swap(0, Record));
    EndsThere(d, Start, log, Swap(0, Record), SwapFrom(d, 1));
  }

  /** Where an abort is not safe: in that run it goes back to the container that
      was stopped, and if it is the only old one, to nothing else. */
  lemma StoppedTarget(d: Deployment, start: World)
    requires WellFormed(d) && d.config.Validated() && d.strategy.Linear? && Ready(d, start)
    ensures Targets(d, Replay(start, StuckLog(d))) == d.olds
    ensures !GoodTargets(d, Replay(start, StuckLog(d)), d.olds)
  {
    hide Inv, Targets, WellFormed, GoodTargets, StuckLog, Replay, Path, Live;
    assert d.Replacements() > 0 by { Nonempty(d); }
    StuckIsARun(d);
    RunIsSafe(d, OwnListing(d), Start, start, StuckLog(d));
    StuckWorld(d, start);
    StuckTargets(d, Replay(start, StuckLog(d)));
  }

  lemma Nonempty(d: Deployment)
    requires WellFormed(d)
    ensures d.Replacements() > 0
  {
  }

  lemma StuckTargets(d: Deployment, s: World)
    requires WellFormed(d) && d.strategy.Linear? && s in Possible(d, OwnListing(d), Failed(Swap(0, Record)))
    requires d.olds[0].id in s.existing && d.olds[0].id in s.stopped
    ensures Targets(d, s) == d.olds && !GoodTargets(d, s, d.olds)
  {
    hide Inv, Targets, Distinct, GoodTargets, Live;
    LinearTargets(d, OwnListing(d), Failed(Swap(0, Record)), s);
    assert d.news[..0] + [d.olds[0]] + d.olds[1..] == d.olds;
    LinearAbortExactly(d, OwnListing(d), Failed(Swap(0, Record)), s);
  }

  lemma StuckWorld(d: Deployment, start: World)
    requires WellFormed(d) && Ready(d, start)
    ensures d.olds[0].id in Replay(start, StuckLog(d)).existing && d.olds[0].id in Replay(start, StuckLog(d)).stopped
  {
    hide FreshState, SwapState, StepUpstream, Distinct, Live;
    assert start.Usable(d.olds[0]);
    var stopped := StuckLog(d).before.before;
    var routed := stopped.before.before;
    assert routed.before.before == Then(Empty, Step(Save(FreshState(d)), true));
    assert Replay(start, routed.before.before).existing == start.existing;
    assert Replay(start, routed.before).existing == start.existing;
    assert Replay(start, routed).existing == start.existing;
    assert Replay(start, stopped).existing == start.existing;
    assert Replay(start, StuckLog(d).before) == Replay(start, stopped);
  }
}
