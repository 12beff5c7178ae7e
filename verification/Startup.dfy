/** A controller's start, as one release sees it: the proxy is brought in line with
    what runs, and only then is the release it finds unfinished recovered. */
module Startup {
  import opened Rollout
  import opened Machine
  import opened Restart
  import opened Promise
  import opened Safety
  import opened Platform
  import opened SharedSteps
  import opened AbortRun
  import opened Outcomes
  import opened Recovery
  import opened Deploy

  /** Every container that runs and has an address, in the order it is listed. */
  function PlainUpstream(service: string, config: Settings, listed: seq<string>, book: map<string, string>): Upstream {
    ApplySettings(config, Upstream(service, config.upstreamName, KnownServers(book, listed, 0, ""), "", 0, "", [], ""))
  }

  /** What a start writes for a service with these containers running. */
  function SyncUpstream(service: string, config: Settings, ds: DeploymentState, listed: seq<string>,
                        book: map<string, string>): Upstream
  {
    var u := RestartUpstream(service, config, ds, book);
    if u.Some? then u.value else PlainUpstream(service, config, listed, book)
  }

  method ListRunning(listed: seq<string>, book: map<string, string>) returns (servers: seq<Server>)
    ensures servers == KnownServers(book, listed, 0, "")
  {
    servers := [];
    for i := 0 to |listed|
      invariant servers + KnownServers(book, listed[i..], 0, "") == KnownServers(book, listed, 0, "")
    {
      assert listed[i..][1..] == listed[i + 1..];
      if listed[i] in book {
        servers := servers + [Server(book[listed[i]], 0, false, false, "")];
      }
    }
  }

  /** Writes the config of a service and reloads the proxy. */
  method GenerateServiceConfig(w: Platform, service: string, config: Settings, listed: seq<string>,
                               book: map<string, string>)
    returns (ok: bool)
    requires w.Valid()
    modifies w
    ensures w.Valid() && w.start == old(w.start) && old(w.bars) <= w.bars
    ensures var known := RestartUpstream(service, config, old(w.saved), book);
      var u := if w.bars == old(w.bars) && known.Some? then known.value
               else ApplySettings(config, Upstream(service, config.upstreamName, KnownServers(book, listed, 0, ""), "",
                                                   0, "", [], ""));
      w.log == Then(old(w.log), Step(Configure(u), ok))
  {
    hide ApplySettings, RestartUpstream, Replay;
    var readable, ds := w.Load();
    var known: Option<Upstream> := None;
    if readable {
      known := DeploymentStateUpstream(service, config, ds, book);
    }
    var u: Upstream;
    if known.Some? {
      u := known.value;
      SettledByState(service, config, ds, book);
    } else {
      var servers := ListRunning(listed, book);
      u := Upstream(service, config.upstreamName, servers, "", 0, "", [], "");
    }
    u := ApplySettings(config, u);
    ok := ApplyConfig(w, u);
  }

  lemma SettledByState(service: string, config: Settings, ds: DeploymentState, book: map<string, string>)
    ensures var u := RestartUpstream(service, config, ds, book); u.Some? ==> ApplySettings(config, u.value) == u.value
  {
  }

  lemma SyncIs(service: string, config: Settings, ds: DeploymentState, listed: seq<string>, book: map<string, string>)
    ensures var known := RestartUpstream(service, config, ds, book);
      SyncUpstream(service, config, ds, listed, book) == if known.Some? then known.value
        else ApplySettings(config, Upstream(service, config.upstreamName, KnownServers(book, listed, 0, ""), "", 0, "",
                                            [], ""))
  {
  }

  /** A start of the controller with some container of the service running: the
      sync, and the recovery unless the sync fails. */
  method StartUp(w: Platform, service: string, config: Settings, listed: seq<string>, book: map<string, string>,
                 lookup: Lookup)
    returns (ok: bool, ghost synced: World)
    requires !w.saved.status.Idle?
    modifies w
    ensures ok && w.bars == 0 ==>
      && synced == Apply(old(w.Now()), Step(Configure(SyncUpstream(service, config, old(w.saved), listed, book)), true))
      && w.Valid() && w.start == synced && Recovers(synced, book, lookup.Proxied(), w.log)
    ensures !ok ==>
      w.bars > 0 || !AllTook(w.log) || Stuck(synced, lookup)
  {
    hide ApplySettings, RestartUpstream, SyncUpstream, PlainUpstream, Running, Path, FirstRead;
    w.BeginRun();
    SyncIs(service, config, w.saved, listed, book);
    ok := GenerateServiceConfig(w, service, config, listed, book);
    synced := w.Now();
    if !ok { return; }
    assert synced.saved == old(w.saved);
    ok := RecoverService(w, book, lookup);
  }

  // ------------------------------------------------ what the proxy serves by then

  /** The state names exactly the containers that take traffic, in any order. */
  ghost predicate NamesServing(d: Deployment, ids: seq<string>, u: Upstream) {
    forall c :: Mine(d, c) ==> (c.id in ids <==> c.addr in Live(u.servers))
  }

  predicate Known(d: Deployment, id: string) {
    id in Ids(d.olds) || id in Ids(d.news)
  }

  /** What Docker tells of the containers of the release: which of them run, in
      some order, and their addresses. */
  ghost predicate Inventory(d: Deployment, s: World, listed: seq<string>, book: map<string, string>) {
    && Sees(book, d, s)
    && (forall c :: Mine(d, c) ==> (c.id in listed <==> s.Usable(c)))
    && (forall id :: id in listed || id in book ==> Known(d, id))
  }

  function RunningOf(s: World, cs: seq<Container>): seq<string> {
    if cs == [] then []
    else (if s.Usable(cs[0]) then [cs[0].id] else []) + RunningOf(s, cs[1..])
  }

  function AddressesOf(s: World, cs: seq<Container>): map<string, string> {
    if cs == [] then map[]
    else
      var rest := AddressesOf(s, cs[1..]);
      if s.Usable(cs[0]) then rest[cs[0].id := cs[0].addr] else rest
  }

  lemma {:induction false} FoundOf(s: World, cs: seq<Container>)
    ensures forall id :: id in RunningOf(s, cs) <==> exists c :: c in cs && s.Usable(c) && c.id == id
    ensures forall id :: id in AddressesOf(s, cs) <==> exists c :: c in cs && s.Usable(c) && c.id == id
    ensures forall id :: id in AddressesOf(s, cs) ==>
      exists c :: c in cs && c.id == id && c.addr == AddressesOf(s, cs)[id]
  {
    if cs != [] {
      FoundOf(s, cs[1..]);
      assert forall c :: c in cs <==> c == cs[0] || c in cs[1..];
    }
  }

  /** Every world has an inventory. */
  lemma SomeInventory(d: Deployment, s: World)
    requires WellFormed(d)
    ensures exists listed, book :: Inventory(d, s, listed, book)
  {
    hide WellFormed;
    var cs := d.olds + d.news;
    var listed, book := RunningOf(s, cs), AddressesOf(s, cs);
    FoundOf(s, cs);
    forall c | Mine(d, c)
      ensures (c.id in listed <==> s.Usable(c)) && (c.id in book <==> s.Usable(c)) &&
        (c.id in book ==> book[c.id] == c.addr)
    {
      assert c in cs;
      forall x | x in cs ensures x.id == c.id <==> x == c {
        SameContainer(d, x, c);
      }
    }
    forall id | id in listed || id in book ensures Known(d, id) {
      var c :| c in cs && s.Usable(c) && c.id == id;
      AddrIn(if c in d.olds then d.olds else d.news, c);
    }
    assert Inventory(d, s, listed, book);
  }

  lemma {:induction false} LiveKnown(book: map<string, string>, ids: seq<string>, weight: int, group: string, a: string)
    ensures a in Live(KnownServers(book, ids, weight, group)) <==> exists id :: id in ids && id in book && book[id] == a
  {
    if ids != [] {
      var first := if ids[0] in book then [Server(book[ids[0]], weight, false, false, group)] else [];
      LiveKnown(book, ids[1..], weight, group, a);
      LiveConcat(first, KnownServers(book, ids[1..], weight, group));
      assert first != [] ==> first[1..] == [];
      assert forall id :: id in ids <==> id == ids[0] || id in ids[1..];
    }
  }

  lemma ById(d: Deployment, id: string) returns (c: Container)
    requires Known(d, id)
    ensures Mine(d, c) && c.id == id
  {
    if id in Ids(d.olds) {
      var i :| 0 <= i < |d.olds| && Ids(d.olds)[i] == id;
      c := d.olds[i];
    } else {
      var i :| 0 <= i < |d.news| && Ids(d.news)[i] == id;
      c := d.news[i];
    }
  }

  /** Servers made from a list of ids are the containers on it that run. */
  lemma KnownServe(d: Deployment, s: World, listed: seq<string>, book: map<string, string>, ids: seq<string>,
                   weight: int,
                   group: string, c: Container)
    requires WellFormed(d) && Inventory(d, s, listed, book) && Mine(d, c)
    ensures c.addr in Live(KnownServers(book, ids, weight, group)) <==> c.id in ids && s.Usable(c)
  {
    hide WellFormed, Live, Known;
    LiveKnown(book, ids, weight, group, c.addr);
    if id :| id in ids && id in book && book[id] == c.addr {
      var x := ById(d, id);
      SameContainer(d, x, c);
    }
  }

  /** With no new container on record running, a start sends traffic to all that
      run; or, if the saved state tells the weights, to those of them on record. */
  lemma SyncServes(d: Deployment, s: World, listed: seq<string>, book: map<string, string>, c: Container)
    requires WellFormed(d) && Inventory(d, s, listed, book) && Mine(d, c) && !Running(s, s.saved.canary)
    ensures c.addr in Live(SyncUpstream(d.service, d.config, s.saved, listed, book).servers) <==>
      s.Usable(c) && (RestartUpstream(d.service, d.config, s.saved, book).None? || c.id in s.saved.stable)
  {
    hide WellFormed, Live, Inventory, KnownServers;
    if RestartUpstream(d.service, d.config, s.saved, book).None? {
      KnownServe(d, s, listed, book, listed, 0, "", c);
      assert c.id in listed <==> s.Usable(c) by { IsListed(d, s, listed, book, c); }
    } else {
      var weight := RestartWeight(d.config, s.saved).value;
      NoneKnown(d, s, listed, book, s.saved.canary, weight, "canary");
      var stable := KnownServers(book, s.saved.stable, 100 - weight, "stable");
      assert stable + [] == stable;
      KnownServe(d, s, listed, book, s.saved.stable, 100 - weight, "stable", c);
    }
  }

  lemma IsListed(d: Deployment, s: World, listed: seq<string>, book: map<string, string>, c: Container)
    requires Inventory(d, s, listed, book) && Mine(d, c)
    ensures c.id in listed <==> s.Usable(c)
  {
  }

  lemma NotKnown(d: Deployment, s: World, listed: seq<string>, book: map<string, string>, id: string)
    requires Inventory(d, s, listed, book) && !(id in s.existing && id !in s.stopped)
    ensures id !in book
  {
    hide Known;
    if id in book {
      var c := ById(d, id);
    }
  }

  lemma {:induction false} NoneKnown(d: Deployment, s: World, listed: seq<string>, book: map<string, string>,
                                     ids: seq<string>, weight: int, group: string)
    requires Inventory(d, s, listed, book) && !Running(s, ids)
    ensures KnownServers(book, ids, weight, group) == []
  {
    hide Known;
    if ids != [] {
      NotKnown(d, s, listed, book, ids[0]);
      forall i | 0 <= i < |ids| - 1 ensures !(ids[1..][i] in s.existing && ids[1..][i] !in s.stopped) {
        assert ids[1..][i] == ids[i + 1];
      }
      NoneKnown(d, s, listed, book, ids[1..], weight, group);
    }
  }

  /** The world after a start that only closes the release. */
  function Closed(d: Deployment, s: World, listed: seq<string>, book: map<string, string>): World {
    Apply(Apply(s, Step(Configure(SyncUpstream(d.service, d.config, s.saved, listed, book)), true)),
          Step(Save(ResetState(s.saved)), true))
  }

  /** When the idle state of a closed release agrees with the proxy: every
      container it names must run, and unless the saved state told the weights no
      other container of the release may. */
  lemma ResetAgreesExactly(d: Deployment, s: World, listed: seq<string>, book: map<string, string>)
    requires WellFormed(d) && s.saved.status != Idle && Inventory(d, s, listed, book) && !Running(s, s.saved.canary)
    ensures var after := Closed(d, s, listed, book);
      && after.saved.status == Idle && after.saved.stable == s.saved.stable && after.saved.canary == [] &&
        after.saved.token == ""
    ensures NamesServing(d, s.saved.stable, Closed(d, s, listed, book).accepted) <==>
      && (forall c :: Mine(d, c) && c.id in s.saved.stable ==> s.Usable(c))
      && (RestartUpstream(d.service, d.config, s.saved, book).None? ==>
            forall c :: Mine(d, c) && s.Usable(c) ==> c.id in s.saved.stable)
  {
    hide WellFormed, Live, Inventory, SyncUpstream, Running, RestartUpstream;
    forall c | Mine(d, c)
      ensures c.addr in Live(Closed(d, s, listed, book).accepted.servers) <==>
        s.Usable(c) && (RestartUpstream(d.service, d.config, s.saved, book).None? || c.id in s.saved.stable)
    {
      SyncServes(d, s, listed, book, c);
    }
  }

  /** Of a blue-green or canary release both sets are on record: closing it agrees
      with the proxy exactly when every old container runs. */
  lemma SetResetExactly(d: Deployment, s: World, listed: seq<string>, book: map<string, string>)
    requires WellFormed(d) && s.saved.status != Idle && Inventory(d, s, listed, book) && !Running(s, s.saved.canary)
    requires s.saved.stable == Ids(d.olds) && s.saved.canary == Ids(d.news)
    ensures NamesServing(d, s.saved.stable, Closed(d, s, listed, book).accepted) <==> AllUsable(s, d.olds)
  {
    hide Live, Inventory, Closed, Distinct, RestartUpstream, NamesServing;
    ResetAgreesExactly(d, s, listed, book);
    forall c | Mine(d, c) ensures c.id in Ids(d.olds) <==> c in d.olds {
      OldById(d, c);
    }
    forall c | c in d.news ensures !s.Usable(c) {
      var i :| 0 <= i < |d.news| && d.news[i] == c;
      assert s.saved.canary[i] == c.id;
    }
  }

  lemma OldById(d: Deployment, c: Container)
    requires WellFormed(d) && Mine(d, c)
    ensures c.id in Ids(d.olds) <==> c in d.olds
  {
    hide WellFormed;
    if c in d.olds {
      AddrIn(d.olds, c);
    } else {
      NotIn(d, d.olds, c);
    }
  }

  /** A start after a crash, with every effect taking. Let a blue-green or canary
      release crash anywhere after its first save, before it touches an old
      container or is closed. Whatever the downtime did to the new containers, the
      start ends with an idle state that names exactly the old containers, which
      are what the proxy serves and all run, whether it rolls back or closes. */
  lemma StartRestores(d: Deployment, start: World, log: Log, s: World, listed: seq<string>, book: map<string, string>,
                      back: Log)
    requires WellFormed(d) && !d.strategy.Linear? && Ready(d, start)
    requires Path(d, Start, log).Some? && TouchesOnly(log, IdSet(d.news))
    requires var p := Path(d, Start, log).value; p != Start && p != Failed(Start) && !p.Done? && !p.RolledBack?
    requires s.saved == Replay(start, log).saved && forall c :: c in d.olds && Replay(start, log).Usable(c) ==>
      s.Usable(c)
    requires Inventory(d, s, listed, book) && AllTook(back)
    requires Recovers(Apply(s, Step(Configure(SyncUpstream(d.service, d.config, s.saved, listed, book)), true)), book,
      true, back)
    ensures var after := Replay(Apply(s, Step(Configure(SyncUpstream(d.service, d.config, s.saved, listed, book)),
      true)), back);
      && after.saved.status == Idle && after.saved.stable == Ids(d.olds) && after.saved.canary == [] &&
        after.saved.token == ""
      && AllUsable(after, d.olds)
      && NamesServing(d, after.saved.stable, after.accepted)
  {
    hide Live, WellFormed, Path, Resolvable, RollbackOf, TouchesOnly, SyncUpstream, Running, EveryStepSafe, Ready;
    hide NamesServing, AllTook;
    var synced := Apply(s, Step(Configure(SyncUpstream(d.service, d.config, s.saved, listed, book)), true));
    assert Running(synced, s.saved.canary) == Running(s, s.saved.canary)
      by { SyncStopsNothing(s, synced, s.saved.canary); }
    CrashRecovery(d, start, log, synced, book, back);
    CrashIsRecoverable(d, start, log);
    var after := Replay(synced, back);
    if Running(s, s.saved.canary) {
      assert NamesServing(d, Ids(d.olds), after.accepted) by { OldsServing(d, after.accepted); }
    } else {
      assert after == Closed(d, s, listed, book);
      SetResetExactly(d, s, listed, book);
    }
  }

  lemma SyncStopsNothing(s: World, synced: World, ids: seq<string>)
    requires synced.existing == s.existing && synced.stopped == s.stopped
    ensures Running(synced, ids) == Running(s, ids)
  {
  }

  lemma OldsServing(d: Deployment, u: Upstream)
    requires WellFormed(d) && Live(u.servers) == Addrs(d.olds)
    ensures NamesServing(d, Ids(d.olds), u)
  {
    hide WellFormed, Live;
    forall c | Mine(d, c) ensures c.id in Ids(d.olds) <==> c.addr in Addrs(d.olds) {
      if c in d.olds {
        AddrIn(d.olds, c);
      } else {
        NotIn(d, d.olds, c);
      }
    }
  }

  // ------------------------------------------------------------- linear releases

  /** A start never rolls a linear release back. It sends traffic to every container
      of the release that runs, and the idle state keeps the ones on record: the two
      agree exactly when the containers on record are the ones that run. */
  lemma LinearResetAgrees(d: Deployment, s: World, listed: seq<string>, book: map<string, string>)
    requires WellFormed(d) && s.saved.status != Idle && s.saved.canary == [] && Inventory(d, s, listed, book)
    ensures !Running(s, s.saved.canary)
    ensures NamesServing(d, s.saved.stable, Closed(d, s, listed, book).accepted) <==>
      forall c :: Mine(d, c) ==> (c.id in s.saved.stable <==> s.Usable(c))
  {
    hide Inventory, Closed, WellFormed, NamesServing;
    ResetAgreesExactly(d, s, listed, book);
  }

  /** The point a run came to, whether it failed there or not. */
  function At(p: Point): Point {
    if p.Failed? then p.at else p
  }

  lemma AtPossible(d: Deployment, l: Listing, p: Point, s: World)
    requires s in Possible(d, l, p) && p.Failed?
    ensures s in Possible(d, l, p.at)
  {
  }

  /** So a crash of a linear release leaves the two in disagreement unless every
      replacement is on record, there are no new containers beyond the replacements,
      and no old container runs any more. */
  lemma LinearResetExactly(d: Deployment, start: World, log: Log, listed: seq<string>, book: map<string, string>)
    requires WellFormed(d) && d.config.Validated() && d.strategy.Linear? && Ready(d, start)
    requires Path(d, Start, log).Some? && Midway(Path(d, Start, log).value)
    requires Inventory(d, Replay(start, log), listed, book)
    ensures var s := Replay(start, log);
      NamesServing(d, s.saved.stable, Closed(d, s, listed, book).accepted) <==>
        && !At(Path(d, Start, log).value).Swap?
        && |d.news| <= |d.olds| && (forall o :: o in d.olds ==> !s.Usable(o))
  {
    hide Live, WellFormed, Path, Replay, Inv, Inventory, Closed, NamesServing, Midway, EveryStepSafe, Facts, OnLinear;
    var p, s := Path(d, Start, log).value, Replay(start, log);
    RunIsSafe(d, OwnListing(d), Start, start, log);
    LinearPoints(d, log);
    if p.Failed? {
      AtPossible(d, OwnListing(d), p, s);
    }
    assert OnLinear(At(p)) || At(p).Finish? by { MidwayIsOn(p); }
    OnRecord(d, At(p), s);
    LinearResetAgrees(d, s, listed, book);
  }

  lemma MidwayIsOn(p: Point)
    requires Midway(p) && (At(p).Start? || OnLinear(At(p)) || At(p).Finish? || p.Done?)
    ensures OnLinear(At(p)) || At(p).Finish?
  {
  }

  /** Whether the containers on record are the ones that run, at each point. */
  lemma OnRecord(d: Deployment, p: Point, s: World)
    requires WellFormed(d) && d.strategy.Linear? && s in Possible(d, OwnListing(d), p) && (OnLinear(p) || p.Finish?)
    ensures s.saved.status == InProgress && s.saved.canary == []
    ensures (forall c :: Mine(d, c) ==> (c.id in s.saved.stable <==> s.Usable(c))) <==>
      !p.Swap? && |d.news| <= |d.olds| && forall o :: o in d.olds ==> !s.Usable(o)
  {
    hide Live, WellFormed;
    if p.Swap? {
      UnrecordedRuns(d, p.i, p.phase, s);
    } else {
      AllRecorded(d, p, s);
    }
  }

  /** Before its replacement is on record a new container runs unrecorded. */
  lemma UnrecordedRuns(d: Deployment, i: nat, phase: Phase, s: World)
    requires WellFormed(d) && i < d.Replacements() && SwapInv(d, i, phase, s)
    ensures Mine(d, d.news[i]) && s.Usable(d.news[i]) && d.news[i].id !in s.saved.stable
  {
    hide Live;
    var n := d.news[i];
    assert n in d.news && n !in d.olds;
    forall k | 0 <= k < |s.saved.stable| ensures s.saved.stable[k] != n.id {
      if k < i {
        assert s.saved.stable[k] == d.news[k].id;
      } else {
        assert s.saved.stable[k] == d.olds[i..][k - i].id && d.olds[k] in d.olds;
      }
    }
  }

  lemma AllRecorded(d: Deployment, p: Point, s: World)
    requires WellFormed(d) && d.strategy.Linear? && s in Possible(d, OwnListing(d), p)
    requires p.Extra? || p.Settle? || p.SettlePlain? || p.Finish?
    ensures s.saved.status == InProgress && s.saved.canary == []
    ensures (forall c :: Mine(d, c) ==> (c.id in s.saved.stable <==> s.Usable(c))) <==>
      |d.news| <= |d.olds| && forall o :: o in d.olds ==> !s.Usable(o)
  {
    hide Live, Distinct;
    var r := d.Replacements();
    var listed := d.news[..r];
    assert s.saved.stable == Ids(listed);
    NotOld(d, |d.olds|);
    assert d.olds[..|d.olds|] == d.olds;
    forall c | c in d.news ensures s.Usable(c) {
      NotOld(d, r);
    }
    forall c | c in d.olds ensures c.id !in Ids(listed) {
      forall i | 0 <= i < r ensures Ids(listed)[i] != c.id {
        assert d.news[i] in d.news;
      }
    }
    if |d.news| <= |d.olds| {
      assert listed == d.news;
      forall c | c in d.news ensures c.id in Ids(listed) {
        AddrIn(d.news, c);
      }
    } else {
      BeyondIsUnlisted(d, r);
    }
  }

  lemma BeyondIsUnlisted(d: Deployment, r: nat)
    requires WellFormed(d) && r < |d.news|
    ensures Mine(d, d.news[r]) && d.news[r].id !in Ids(d.news[..r])
  {
    assert d.news[r] in d.news;
  }

  /** When every effect took up to the crash, that is: once all replacements are on
      record, with as many old containers as new ones. */
  lemma LinearResetUnfaulted(d: Deployment, start: World, log: Log, listed: seq<string>, book: map<string, string>)
    requires WellFormed(d) && d.config.Validated() && d.strategy.Linear? && Ready(d, start) && AllTook(log)
    requires Path(d, Start, log).Some? && Midway(Path(d, Start, log).value)
    requires Inventory(d, Replay(start, log), listed, book)
    ensures var s := Replay(start, log);
      NamesServing(d, s.saved.stable, Closed(d, s, listed, book).accepted) <==>
        !At(Path(d, Start, log).value).Swap? && |d.news| == |d.olds|
  {
    hide Live, WellFormed, Path, Replay, Inv, Inventory, Closed, NamesServing, Midway, EveryStepSafe;
    var p, s := Path(d, Start, log).value, Replay(start, log);
    LinearResetExactly(d, start, log, listed, book);
    LinearPoints(d, log);
    RunIsSafe(d, OwnListing(d), Start, start, log);
    CompletedRunRemoves(d, Start, start, log);
    UnfaultedNotFailed(d, log);
    assert OnLinear(At(p)) || At(p).Finish? by { MidwayIsOn(p); }
    if !p.Swap? {
      OldsLeft(d, p, s);
    }
  }

  lemma UnfaultedNotFailed(d: Deployment, log: Log)
    requires AllTook(log) && Path(d, Start, log).Some?
    ensures !Path(d, Start, log).value.Failed?
  {
    hide Allowed, Next;
  }

  lemma OldsLeft(d: Deployment, p: Point, s: World)
    requires WellFormed(d) && d.strategy.Linear? && s in Possible(d, OwnListing(d), p) && Gone(s, Behind(d, p))
    requires p.Extra? || p.Settle? || p.SettlePlain? || p.Finish?
    ensures (forall o :: o in d.olds ==> !s.Usable(o)) <==> |d.olds| <= |d.news|
  {
    hide Possible, WellFormed, Behind;
    var r := d.Replacements();
    EitherSide(d, r);
    TailRuns(d, p, s);
    assert d.olds == d.olds[..r] + d.olds[r..];
    forall o | o in d.olds[..r] ensures !s.Usable(o) {
      assert o in Behind(d, p) by { TailBehind(d, p); }
    }
    if r < |d.olds| {
      assert d.olds[r] in d.olds[r..];
    }
  }

  lemma TailRuns(d: Deployment, p: Point, s: World)
    requires d.strategy.Linear? && s in Possible(d, OwnListing(d), p)
    requires p.Extra? || p.Settle? || p.SettlePlain? || p.Finish?
    ensures forall c :: Mine(d, c) && c !in d.olds[..d.Replacements()] ==> s.Usable(c)
  {
    hide Live;
  }

  lemma TailBehind(d: Deployment, p: Point)
    requires d.strategy.Linear? && (p.Extra? || p.Settle? || p.SettlePlain? || p.Finish?)
    ensures Behind(d, p) == d.olds[..d.Replacements()]
  {
  }

  /** The shortest such run: the controller crashes right after the first save of a
      linear release. */
  function CrashedAtOnce(d: Deployment): Log {
    Then(Empty, Step(Save(FreshState(d)), true))
  }

  /** The next start then sends traffic to every new container, though none passed a
      health check, while the idle state names the old ones alone. */
  lemma LinearCrashAtOnce(d: Deployment, start: World, listed: seq<string>, book: map<string, string>)
    requires WellFormed(d) && d.config.Validated() && d.strategy.Linear? && Ready(d, start)
    requires Inventory(d, Replay(start, CrashedAtOnce(d)), listed, book)
    ensures Path(d, Start, CrashedAtOnce(d)) == Some(Swap(0, Health))
    ensures var after := Closed(d, Replay(start, CrashedAtOnce(d)), listed, book);
      && after.saved.status == Idle && after.saved.stable == Ids(d.olds) && after.healthy == start.healthy
      && (forall n :: n in d.news ==> n.addr in Live(after.accepted.servers) && n.id !in after.saved.stable)
      && !NamesServing(d, after.saved.stable, after.accepted)
  {
    hide Live, Inv, Inventory, SyncUpstream, NamesServing, Distinct, Follow, Edge, Running, Ready, Path;
    var log, s := CrashedAtOnce(d), Replay(start, CrashedAtOnce(d));
    assert log.before == Empty;
    Begin(d, Start);
    LinearEdges(d);
    Along(d, Start, log, Start, SwapFrom(d, 0));
    assert s == Apply(start, log.last);
    assert s.saved == FreshState(d);
    LinearResetAgrees(d, s, listed, book);
    assert AllUsable(start, d.news) by { NewsRun(d, start); }
    forall n | n in d.news
      ensures n.addr in Live(Closed(d, s, listed, book).accepted.servers) && n.id !in Ids(d.olds)
    {
      SyncServes(d, s, listed, book, n);
      OldById(d, n);
    }
    assert Mine(d, d.news[0]) && s.Usable(d.news[0]);
  }

  lemma NewsRun(d: Deployment, s: World)
    requires WellFormed(d) && Ready(d, s)
    ensures AllUsable(s, d.news)
  {
  }
}
