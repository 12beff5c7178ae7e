/** The fast path of HAProxy against its definition: a Runtime API update must
    leave users with the servers that a reload of the same file would. */
module HAProxyFastPath {
  import opened Rollout
  import opened Text
  import opened HAProxyBackend
  import opened HAProxyOptions
  import opened HAProxyRuntime

  /** No server is marked both draining and backup. */
  predicate Steady(b: Section) {
    forall i :: 0 <= i < |b.servers| ==> !(b.servers[i].down && b.servers[i].backup)
  }

  function Listing(b: Section): seq<Listed> {
    ListedUpTo(b, |b.servers|)
  }

  /** A server's name says what it is: `b` for a backup, and any other one is its
      own cookie value, if the backend uses cookies. */
  predicate Ruled(slots: Slots, cookie: bool) {
    forall n :: n in slots ==>
      && slots[n].backup == ("b" <= n)
      && slots[n].cookie == (if cookie && !("b" <= n) then Some(n) else None)
  }

  lemma ReadWeight(s: Server, rest: seq<string>, slot: Slot)
    ensures ReadWords(WeightWords(s) + rest, slot) ==
      ReadWords(rest, if s.weight > 0 then slot.(weight := Itoa(s.weight)) else slot)
  {
    hide Itoa;
    if s.weight > 0 {
      assert (["weight", Itoa(s.weight)] + rest)[2..] == rest;
    } else {
      assert [] + rest == rest;
    }
  }

  lemma ReadState(s: Server, rest: seq<string>, slot: Slot)
    requires !slot.maint && !slot.backup
    ensures ReadWords(StateWords(s) + rest, slot) ==
      ReadWords(rest, slot.(maint := s.down, backup := s.backup && !s.down))
  {
    if s.down {
      assert (["disabled"] + rest)[1..] == rest;
    } else if s.backup {
      assert (["backup"] + rest)[1..] == rest;
    } else {
      assert [] + rest == rest;
    }
  }

  lemma ReadCookie(b: Section, i: nat, slot: Slot)
    requires i < |b.servers|
    ensures ReadWords(CookieWords(b, i), slot)
         == if b.affinity == "cookie" && !b.servers[i].backup then slot.(cookie := Some("s" + Itoa(i + 1))) else slot
  {
    hide Itoa;
    if b.affinity == "cookie" && !b.servers[i].backup {
      assert ["cookie", "s" + Itoa(i + 1)][2..] == [];
    }
  }

  /** How the proxy reads a written server line. */
  lemma SlotOfServer(b: Section, i: nat)
    requires i < |b.servers|
    ensures var s := b.servers[i];
      SlotOf(ListedOf(b, i)) == Slot(s.addr, if s.weight > 0 then Itoa(s.weight) else "1", s.down, s.backup && !s.down,
                                     if b.affinity == "cookie" && !s.backup then Some("s" + Itoa(i + 1)) else None)
  {
    hide Itoa, ReadWords, WeightWords, StateWords, CookieWords, Arguments, ServerName;
    ArgumentsSplit(b, i);
    var s := b.servers[i];
    var slot := Slot(s.addr, "1", false, false, None);
    ReadWeight(s, StateWords(s) + CookieWords(b, i), slot);
    var weighted := if s.weight > 0 then slot.(weight := Itoa(s.weight)) else slot;
    ReadState(s, CookieWords(b, i), weighted);
    ReadCookie(b, i, weighted.(maint := s.down, backup := s.backup && !s.down));
  }

  lemma NamesDiffer(b: Section, i: nat, j: nat)
    requires i < |b.servers| && j < |b.servers| && ServerName(b.servers[i], i) == ServerName(b.servers[j], j)
    ensures i == j
  {
    hide Itoa;
    var x, y := ServerName(b.servers[i], i), ServerName(b.servers[j], j);
    assert x[1..] == Itoa(i + 1) && y[1..] == Itoa(j + 1);
    ItoaInjective(i + 1, j + 1);
  }

  /** The attributes a listed server is made with are those its name says. */
  lemma ListedRule(b: Section, i: nat)
    requires i < |b.servers| && Steady(b)
    ensures var l := ListedOf(b, i);
      && SlotOf(l).backup == ("b" <= l.name)
      && SlotOf(l).cookie == (if b.affinity == "cookie" && !("b" <= l.name) then Some(l.name) else None)
  {
    hide Itoa, SlotOf;
    SlotOfServer(b, i);
    var name := ServerName(b.servers[i], i);
    assert name[0] == if b.servers[i].backup then 'b' else 's';
  }

  predicate OwnServerNames(servers: seq<Listed>) {
    forall i, j :: 0 <= i < j < |servers| ==> servers[i].name != servers[j].name
  }

  lemma {:induction false} ReloadedAre(servers: seq<Listed>)
    requires OwnServerNames(servers)
    ensures forall i :: 0 <= i < |servers| ==>
      servers[i].name in Reloaded(servers) && Reloaded(servers)[servers[i].name] == SlotOf(servers[i])
    ensures forall name :: name in Reloaded(servers) ==> exists i :: 0 <= i < |servers| && servers[i].name == name
  {
    hide SlotOf;
    if servers != [] {
      ReloadedAre(servers[..|servers| - 1]);
    }
  }

  lemma ReloadedHas(b: Section)
    ensures forall i :: 0 <= i < |b.servers| ==>
      ListedOf(b, i).name in Reloaded(Listing(b)) && Reloaded(Listing(b))[ListedOf(b, i).name] == SlotOf(ListedOf(b, i))
    ensures forall name :: name in Reloaded(Listing(b)) ==>
      exists i :: 0 <= i < |b.servers| && ListedOf(b, i).name == name
  {
    hide SlotOf, Itoa, Arguments, Reloaded, ServerName;
    forall i, j | 0 <= i < j < |b.servers| ensures ListedOf(b, i).name != ListedOf(b, j).name {
      if ListedOf(b, i).name == ListedOf(b, j).name {
        NamesDiffer(b, i, j);
      }
    }
    ReloadedAre(Listing(b));
    forall name | name in Reloaded(Listing(b)) ensures exists i :: 0 <= i < |b.servers| && ListedOf(b, i).name == name {
      var i :| 0 <= i < |Listing(b)| && Listing(b)[i].name == name;
      assert ListedOf(b, i).name == name;
    }
  }

  /** Whatever an update did, finished or not, names still say what servers are. */
  lemma StaysRuled(b: Section, before: Slots, after: Slots)
    requires Steady(b) && Ruled(before, b.affinity == "cookie") && after in Grown(before, Listing(b))
    ensures Ruled(after, b.affinity == "cookie")
  {
    hide SlotOf, Itoa;
    forall n | n in after
      ensures after[n].backup == ("b" <= n) &&
        after[n].cookie == (if b.affinity == "cookie" && !("b" <= n) then Some(n) else None)
    {
      if n !in before {
        var i :| 0 <= i < |Listing(b)| && Listing(b)[i].name == n
          && after[n].backup == SlotOf(Listing(b)[i]).backup && after[n].cookie == SlotOf(Listing(b)[i]).cookie;
        ListedRule(b, i);
      }
    }
  }

  /** A finished update leaves ready exactly the servers that a reload of the file
      would, each with the same address, weight, backup mark and cookie. */
  lemma UpdateIsReload(b: Section, slots: Slots)
    requires Steady(b) && Ruled(slots, b.affinity == "cookie") && Brought(slots, Listing(b))
    ensures Ready(slots) == Ready(Reloaded(Listing(b)))
  {
    hide Reloaded, Listing;
    var loaded := Reloaded(Listing(b));
    forall n ensures n in Ready(slots) <==> n in Ready(loaded)
      ensures n in Ready(slots) ==> Ready(loaded)[n] == Ready(slots)[n]
    {
      ReadyBoth(b, slots, n);
    }
  }

  lemma ReadyBoth(b: Section, slots: Slots, n: string)
    requires Steady(b) && Ruled(slots, b.affinity == "cookie") && Brought(slots, Listing(b))
    ensures var loaded := Reloaded(Listing(b));
      && (n in slots && !slots[n].maint <==> n in loaded && !loaded[n].maint)
      && (n in slots && !slots[n].maint ==> loaded[n] == slots[n])
  {
    hide SlotOf, Itoa, Reloaded, Arguments, ServerName, ListedOf;
    ReloadedHas(b);
    if i :| 0 <= i < |b.servers| && ListedOf(b, i).name == n {
      assert Listing(b)[i].name == n && AsListed(slots, Listing(b)[i]);
      AsReloaded(b, i, slots[n]);
    } else {
      assert !IsListed(Listing(b), n);
    }
  }

  /** A slot that is as listed, with the attributes of its name, is the one a
      reload makes, or both rest. */
  lemma AsReloaded(b: Section, i: nat, slot: Slot)
    requires i < |b.servers| && Steady(b)
    requires var l := ListedOf(b, i); slot.addr == l.addr && slot.weight == l.weight && slot.maint == l.maint
    requires slot.backup == ("b" <= ListedOf(b, i).name)
    requires slot.cookie == (if b.affinity == "cookie" && !("b" <= ListedOf(b, i).name) then Some(ListedOf(b, i).name)
      else None)
    ensures slot == SlotOf(ListedOf(b, i))
  {
    hide SlotOf, Itoa, Arguments;
    ListedRule(b, i);
    SlotOfServer(b, i);
  }

  /** Why draining backups are ruled out: such a server is written without its
      backup mark, so its name lies about it. */
  lemma DrainingBackup(b: Section, i: nat)
    requires i < |b.servers| && b.servers[i].down && b.servers[i].backup
    ensures "b" <= ListedOf(b, i).name && !SlotOf(ListedOf(b, i)).backup
  {
    hide Itoa, SlotOf;
    SlotOfServer(b, i);
    assert ServerName(b.servers[i], i)[0] == 'b';
  }

  // ------------------------------------------------------------- whole files

  function BackendName(b: Section): string {
    b.name + "_be"
  }

  predicate OwnNames(bs: seq<Section>) {
    forall i, j :: 0 <= i < j < |bs| ==> BackendName(bs[i]) != BackendName(bs[j])
  }

  /** Sections as the controller writes them. */
  predicate Written(bs: seq<Section>) {
    bs != [] && OwnNames(bs) && forall k :: 0 <= k < |bs| ==> WellWritten(bs[k]) && Steady(bs[k])
  }

  /** The running backends of a file have servers whose names do not lie. */
  predicate Sound(backends: map<string, Slots>, bs: seq<Section>) {
    forall k :: 0 <= k < |bs| && BackendName(bs[k]) in backends ==>
      Ruled(backends[BackendName(bs[k])], bs[k].affinity == "cookie")
  }

  predicate ShowsOne(backends: map<string, Slots>, b: Section) {
    BackendName(b) in backends && Ready(backends[BackendName(b)]) == Ready(Reloaded(Listing(b)))
  }

  /** Users find what a reload of the file would give them. */
  predicate Shows(backends: map<string, Slots>, bs: seq<Section>) {
    forall k :: 0 <= k < |bs| ==> ShowsOne(backends, bs[k])
  }

  function NamesOf(bs: seq<Section>): set<string> {
    set b | b in bs :: BackendName(b)
  }

  /** Nothing but the backends of these sections changed. */
  predicate Beside(before: map<string, Slots>, after: map<string, Slots>, bs: seq<Section>) {
    before - NamesOf(bs) == after - NamesOf(bs)
  }

  /** What the files of these sections load as, and nothing else. */
  predicate Loads(backends: map<string, Slots>, bs: seq<Section>) {
    && backends.Keys == NamesOf(bs)
    && forall k :: 0 <= k < |bs| ==>
      BackendName(bs[k]) in backends && backends[BackendName(bs[k])] == Reloaded(Listing(bs[k]))
  }

  lemma BesideOnly(a: map<string, Slots>, b: map<string, Slots>, c: map<string, Slots>, bs: seq<Section>, k: nat)
    requires k < |bs| && Beside(a, b, bs) && Only(b, c, BackendName(bs[k]))
    ensures Beside(a, c, bs)
  {
    hide BackendName;
    assert bs[k] in bs && BackendName(bs[k]) in NamesOf(bs);
    assert c - NamesOf(bs) == b - NamesOf(bs);
  }

  /** What other services show stays as it was. */
  lemma OthersKept(before: map<string, Slots>, after: map<string, Slots>, bs: seq<Section>, rest: seq<Section>)
    requires Beside(before, after, bs) && NamesOf(rest) !! NamesOf(bs)
    ensures (Sound(before, rest) ==> Sound(after, rest)) && (Shows(before, rest) ==> Shows(after, rest))
  {
    hide BackendName, Ready, Reloaded, Ruled, Listing;
    forall k | 0 <= k < |rest|
      ensures BackendName(rest[k]) in before <==> BackendName(rest[k]) in after
      ensures BackendName(rest[k]) in before ==> before[BackendName(rest[k])] == after[BackendName(rest[k])]
    {
      var n := BackendName(rest[k]);
      assert n in NamesOf(rest);
      assert n in before - NamesOf(bs) <==> n in before;
      assert n in after - NamesOf(bs) <==> n in after;
      if n in before {
        assert (before - NamesOf(bs))[n] == before[n];
        assert (after - NamesOf(bs))[n] == after[n];
      }
    }
  }

  function FileText(bs: seq<Section>): string
    requires bs != []
  {
    Terminated(FileLines(bs))
  }

  lemma WrittenFile(bs: seq<Section>)
    requires Written(bs)
    ensures Cut(SplitLines(FileText(bs))) == [[Header()]] + Parts(bs)
  {
    hide Cut, SplitLines, FileLines, WellWritten, Parts;
    assert forall b :: b in bs ==> WellWritten(b);
    FileRoundTrip(bs);
  }

  lemma HeaderSection()
    ensures Parse(SplitLines(JoinLines([Header()]))) == Some(Parsed("", []))
  {
    hide SplitLines, FirstWord;
    HeaderLine();
    HeaderStart();
    SplitJoined([Header()]);
    ParseTail([], [Header()]);
    assert [] + [Header()] == [Header()];
  }

  lemma SectionText(b: Section)
    requires WellWritten(b)
    ensures Parse(SplitLines(JoinLines(Part(b)))) == Some(Parsed(BackendName(b), Listing(b)))
  {
    hide SplitLines, SectionLines, WellWritten, OneLine, JoinLines;
    SectionOneLine(b);
    EmptyLine();
    SplitJoined(Part(b));
    SectionRoundTrip(b);
  }

  /** One backend updated among others. */
  lemma OneUpdated(before: map<string, Slots>, after: map<string, Slots>, bs: seq<Section>, k: nat)
    requires Written(bs) && k < |bs| && Sound(before, bs) && Only(before, after, BackendName(bs[k]))
    requires after[BackendName(bs[k])] in Grown(before[BackendName(bs[k])], Listing(bs[k]))
    ensures Sound(after, bs)
    ensures Brought(after[BackendName(bs[k])], Listing(bs[k])) ==> ShowsOne(after, bs[k])
    ensures forall i :: 0 <= i < k && ShowsOne(before, bs[i]) ==> ShowsOne(after, bs[i])
  {
    hide Reloaded, Grown, Brought, WellWritten, Ready, BackendName;
    StaysRuled(bs[k], before[BackendName(bs[k])], after[BackendName(bs[k])]);
    if Brought(after[BackendName(bs[k])], Listing(bs[k])) {
      UpdateIsReload(bs[k], after[BackendName(bs[k])]);
    }
  }

  /** The proxy has all backends of these sections. */
  predicate Present(backends: map<string, Slots>, bs: seq<Section>) {
    forall k :: 0 <= k < |bs| ==> BackendName(bs[k]) in backends
  }

  /** Every server has an address with a port. */
  predicate Dialable(bs: seq<Section>) {
    forall k, i :: 0 <= k < |bs| && 0 <= i < |bs[k].servers| ==> SplitHostPort(bs[k].servers[i].addr).Some?
  }

  lemma SectionIsFit(bs: seq<Section>, k: nat)
    requires Dialable(bs) && k < |bs|
    ensures Fit(Listing(bs[k]))
  {
    hide Itoa, Arguments, SplitHostPort, ServerName;
    var b := bs[k];
    forall i, j | 0 <= i < j < |b.servers| ensures ListedOf(b, i).name != ListedOf(b, j).name {
      if ListedOf(b, i).name == ListedOf(b, j).name {
        NamesDiffer(b, i, j);
      }
    }
  }

  lemma OnlyKeeps(before: map<string, Slots>, after: map<string, Slots>, bs: seq<Section>, k: nat)
    requires k < |bs| && Only(before, after, BackendName(bs[k])) && Present(before, bs)
    ensures Present(after, bs)
  {
  }

  /** Updates every backend of a file, one after the other. `bs` says what was
      written in it. If the proxy has the backends, and the servers have ports, it
      fails only for a command that fails. */
  method UpdateBackends(proxy: Proxy, text: string, ghost bs: seq<Section>) returns (ok: bool)
    requires Written(bs) && text == FileText(bs) && Sound(proxy.backends, bs)
    modifies proxy`backends, proxy`faults
    ensures Sound(proxy.backends, bs) && (ok ==> Shows(proxy.backends, bs))
    ensures Beside(old(proxy.backends), proxy.backends, bs) && old(proxy.faults) <= proxy.faults
    ensures Present(old(proxy.backends), bs) ==> Present(proxy.backends, bs)
    ensures Present(old(proxy.backends), bs) && Dialable(bs) && proxy.faults == old(proxy.faults) ==> ok
  {
    hide FileText, Cut, SplitLines, JoinLines, Parse, WellWritten, Ready, Reloaded, Grown, Brought, Only, NamesOf;
    hide Header, Part, Listing, Parts, Dialable, Fit;
    var sections := SplitBackends(text);
    WrittenFile(bs);
    HeaderSection();
    for i := 0 to |sections|
      invariant Sound(proxy.backends, bs)
      invariant Beside(old(proxy.backends), proxy.backends, bs) && old(proxy.faults) <= proxy.faults
      invariant Present(old(proxy.backends), bs) ==> Present(proxy.backends, bs)
      invariant forall k :: 0 <= k < i - 1 ==> ShowsOne(proxy.backends, bs[k])
    {
      ghost var before := proxy.backends;
      if i > 0 {
        assert sections[i] == JoinLines(Part(bs[i - 1]));
        SectionText(bs[i - 1]);
        if Dialable(bs) {
          SectionIsFit(bs, i - 1);
        }
        assert BackendName(bs[i - 1]) != "" by { NotEmptyName(bs[i - 1]); }
      } else {
        assert sections[0] == JoinLines([Header()]);
      }
      ok := proxy.UpdateServers(sections[i]);
      if i > 0 && BackendName(bs[i - 1]) in before {
        OneUpdated(before, proxy.backends, bs, i - 1);
        BesideOnly(old(proxy.backends), before, proxy.backends, bs, i - 1);
        if Present(before, bs) {
          OnlyKeeps(before, proxy.backends, bs, i - 1);
        }
      }
      if !ok {
        return false;
      }
    }
    return true;
  }

  lemma NotEmptyName(b: Section)
    ensures BackendName(b) != ""
  {
  }

  lemma ReloadedRuled(b: Section)
    requires Steady(b)
    ensures Ruled(Reloaded(Listing(b)), b.affinity == "cookie")
  {
    hide SlotOf, Itoa, Reloaded;
    ReloadedHas(b);
    forall n | n in Reloaded(Listing(b))
      ensures Reloaded(Listing(b))[n].backup == ("b" <= n)
        && Reloaded(Listing(b))[n].cookie == (if b.affinity == "cookie" && !("b" <= n) then Some(n) else None)
    {
      var i :| 0 <= i < |b.servers| && ListedOf(b, i).name == n;
      ListedRule(b, i);
    }
  }

  /** Loads all files anew: this one, and those of the other services, which load as
      `elsewhere`. On failure the old worker goes on. */
  method Reload(proxy: Proxy, text: string, elsewhere: map<string, Slots>, ghost bs: seq<Section>) returns (ok: bool)
    requires Written(bs) && text == FileText(bs) && elsewhere.Keys !! NamesOf(bs)
    modifies proxy
    ensures old(proxy.faults) <= proxy.faults && (ok <==> proxy.faults == old(proxy.faults))
    ensures proxy.workers == old(proxy.workers) + if ok then 1 else 0
    ensures !ok ==> proxy.backends == old(proxy.backends)
    ensures ok ==> Shows(proxy.backends, bs) && Sound(proxy.backends, bs) && Beside(elsewhere, proxy.backends, bs)
  {
    hide FileText, Cut, SplitLines, JoinLines, Parse, WellWritten, Reloaded, Ruled, Header, Part;
    hide Listing, Parts, BackendName, ListedUpTo;
    ok := proxy.StartWorker();
    if !ok {
      return;
    }
    var sections := SplitBackends(text);
    WrittenFile(bs);
    HeaderSection();
    var loaded := elsewhere;
    for i := 0 to |sections|
      invariant Beside(elsewhere, loaded, bs)
      invariant proxy.faults == old(proxy.faults) && proxy.workers == old(proxy.workers) + 1
      invariant forall k :: 0 <= k < i - 1 ==>
        BackendName(bs[k]) in loaded && loaded[BackendName(bs[k])] == Reloaded(Listing(bs[k]))
    {
      if i > 0 {
        assert sections[i] == JoinLines(Part(bs[i - 1]));
        SectionText(bs[i - 1]);
        assert BackendName(bs[i - 1]) != "" by { NotEmptyName(bs[i - 1]); }
        assert bs[i - 1] in bs;
      } else {
        assert sections[0] == JoinLines([Header()]);
      }
      var parsed := BackendServers(sections[i]);
      if parsed.Some? && parsed.value.backend != "" {
        loaded := loaded[parsed.value.backend := Reloaded(parsed.value.servers)];
      }
    }
    proxy.backends := loaded;
    forall k | 0 <= k < |bs| ensures Ruled(loaded[BackendName(bs[k])], bs[k].affinity == "cookie") {
      ReloadedRuled(bs[k]);
    }
  }

  /** Other services show what their files say once those were loaded. */
  lemma LoadedShow(elsewhere: map<string, Slots>, backends: map<string, Slots>, bs: seq<Section>, rest: seq<Section>)
    requires Loads(elsewhere, rest) && (forall b :: b in rest ==> Steady(b))
    requires Beside(elsewhere, backends, bs) && NamesOf(rest) !! NamesOf(bs)
    ensures Sound(backends, rest) && Shows(backends, rest)
  {
    hide BackendName, Ready, Reloaded, Ruled, Listing, Beside, NamesOf, Steady;
    forall k | 0 <= k < |rest| ensures Ruled(elsewhere[BackendName(rest[k])], rest[k].affinity == "cookie") {
      ReloadedRuled(rest[k]);
    }
    OthersKept(elsewhere, backends, bs, rest);
  }

  /** Files with the same options are updated under the same rules. */
  lemma SoundForBoth(backends: map<string, Slots>, olds: seq<Section>, news: seq<Section>)
    requires Written(olds) && Written(news) && OptionsOf(olds) == OptionsOf(news)
    ensures Sound(backends, olds) <==> Sound(backends, news)
  {
    hide WellWritten, Ruled, OptionsOf;
    assert forall b :: b in olds ==> WellWritten(b);
    assert forall b :: b in news ==> WellWritten(b);
    SameOptions(olds, news);
    assert forall k :: 0 <= k < |news| ==> BackendName(olds[k]) == BackendName(news[k]);
  }

  lemma PresentForBoth(backends: map<string, Slots>, olds: seq<Section>, news: seq<Section>)
    requires Written(olds) && Written(news) && OptionsOf(olds) == OptionsOf(news)
    ensures Present(backends, olds) <==> Present(backends, news)
  {
    hide WellWritten, OptionsOf;
    assert forall b :: b in olds ==> WellWritten(b);
    assert forall b :: b in news ==> WellWritten(b);
    SameOptions(olds, news);
    assert forall k :: 0 <= k < |news| ==> BackendName(olds[k]) == BackendName(news[k]);
  }

  lemma WrittenSome(bs: seq<Section>)
    requires Written(bs)
    ensures bs != []
  {
  }

  lemma NoFileNoOptions(bs: seq<Section>)
    requires Written(bs)
    ensures OptionsOf(bs) != JoinLines(WithoutServers(SplitLines("")))
  {
    hide WellWritten, Cut, OptionsOf, Parts, Header;
    assert forall b :: b in bs ==> WellWritten(b);
    CutOptions(bs);
    assert SplitLines("") == [""];
    EmptyLine();
    WithoutNone([""]);
    SplitJoined([""]);
    assert Cut([""]) == [[""]] by { CutSnoc([], ""); CutNone(); assert [] + [""] == [""]; }
    assert |[[Header()]] + Parts(AllStripped(bs))| == 1 + |bs|;
  }

  /** Applies a service's new backend file to the running proxy: by the Runtime API
      when nothing but servers changed, and by a reload otherwise. `others` says
      that the route file and the frontend stay as they are, `elsewhere` what the
      files of the other services load as. Success leaves users with what a reload
      of the new file gives, whatever an earlier failure left behind. After a
      failure the proxy is as it was, or users have what the old file gives, unless
      the way back failed too, which takes a second fault. What other services show
      stays. If the proxy has the backends and all servers have ports, only a fault can
      make it fail. */
  method ApplyBundled(proxy: Proxy, before: Option<string>, after: string, others: bool, elsewhere: map<string, Slots>,
                      ghost olds: seq<Section>, ghost news: seq<Section>, ghost rest: seq<Section>)
    returns (ok: bool, ghost restored: bool)
    requires Written(news) && after == FileText(news)
    requires before.Some? ==> Written(olds) && before.value == FileText(olds) && Sound(proxy.backends, olds)
    requires Loads(elsewhere, rest) && (forall b :: b in rest ==> Steady(b))
    requires NamesOf(rest) !! NamesOf(news) && (before.Some? ==> NamesOf(rest) !! NamesOf(olds))
    modifies proxy
    ensures ok ==> Sound(proxy.backends, news) && Shows(proxy.backends, news)
    ensures !ok && before.Some? ==>
      Sound(proxy.backends, olds) && (restored ==> Shows(proxy.backends, olds) || proxy.backends == old(proxy.backends))
    ensures !ok && before.None? ==> proxy.backends == old(proxy.backends)
    ensures (before.Some? ==> Present(old(proxy.backends), olds)) && Dialable(news) ==>
      old(proxy.faults) <= proxy.faults && (ok <== proxy.faults == old(proxy.faults))
    ensures proxy.workers == old(proxy.workers) +
      if ok && !(others && before.Some? && OptionsOf(olds) == OptionsOf(news)) then 1 else 0
    ensures !ok && before.Some? && Present(old(proxy.backends), olds) && Dialable(olds) && Dialable(news) ==>
      proxy.faults <= old(proxy.faults) + 1 ==> Shows(proxy.backends, olds) || proxy.backends == old(proxy.backends)
    ensures Sound(old(proxy.backends), rest) && Shows(old(proxy.backends), rest) ==>
      Sound(proxy.backends, rest) && Shows(proxy.backends, rest)
  {
    hide Written, Sound, Shows, WithoutServers, JoinLines, SplitLines, Terminated, FileLines, Beside, Loads, NamesOf;
    hide Present, Dialable;
    restored := true;
    var oldText := if before.Some? then before.value else "";
    var oldOptions := BackendOptions(oldText);
    var newOptions := BackendOptions(after);
    var runtimeOnly := others && oldOptions == newOptions;
    if runtimeOnly {
      WrittenSome(news);
      if before.None? {
        NoFileNoOptions(news);
        assert false;
      }
      WrittenSome(olds);
      assert oldOptions == OptionsOf(olds) && newOptions == OptionsOf(news);
      SoundForBoth(proxy.backends, olds, news);
      PresentForBoth(proxy.backends, olds, news);
    }
    var valid := proxy.Validate();
    if !valid {
      return false, restored;
    }
    if !runtimeOnly {
      LoadedKeys(elsewhere, rest);
      ok := Reload(proxy, after, elsewhere, news);
      if ok {
        LoadedShow(elsewhere, proxy.backends, news, rest);
      }
      return;
    }
    ghost var found := proxy.backends;
    ok := UpdateBackends(proxy, after, news);
    OthersKept(found, proxy.backends, news, rest);
    if !ok {
      SoundForBoth(proxy.backends, olds, news);
      PresentForBoth(proxy.backends, olds, news);
      ghost var half := proxy.backends;
      restored := UpdateBackends(proxy, oldText, olds);
      OthersKept(half, proxy.backends, olds, rest);
    }
  }

  lemma LoadedKeys(elsewhere: map<string, Slots>, rest: seq<Section>)
    requires Loads(elsewhere, rest)
    ensures elsewhere.Keys == NamesOf(rest)
  {
  }
}
