/** The HAProxy Runtime API update: bringing a running backend to the servers of a
    new file without a reload. */
module HAProxyRuntime {
  import opened Rollout
  import opened Text
  import opened HAProxyBackend
  import opened HAProxyOptions

  /** A server as the running proxy has it. `maint` servers get no requests. */
  datatype Slot = Slot(addr: string, weight: string, maint: bool, backup: bool, cookie: Option<string>)

  type Slots = map<string, Slot>

  /** How the proxy reads the words after a server's address. */
  function ReadWords(words: seq<string>, slot: Slot): Slot {
    if words == [] then slot
    else if words[0] == "weight" && |words| > 1 then ReadWords(words[2..], slot.(weight := words[1]))
    else if words[0] == "cookie" && |words| > 1 then ReadWords(words[2..], slot.(cookie := Some(words[1])))
    else if words[0] == "disabled" then ReadWords(words[1..], slot.(maint := true))
    else if words[0] == "backup" then ReadWords(words[1..], slot.(backup := true))
    else ReadWords(words[1..], slot)
  }

  function SlotOf(l: Listed): Slot {
    if l.args == [] then Slot("", "1", false, false, None)
    else ReadWords(l.args[1..], Slot(l.args[0], "1", false, false, None))
  }

  /** The servers of a backend right after a reload of its file. */
  function Reloaded(servers: seq<Listed>): Slots {
    if servers == [] then map[]
    else
      var l := servers[|servers| - 1];
      Reloaded(servers[..|servers| - 1])[l.name := SlotOf(l)]
  }

  /** What users can notice: the servers that take requests. */
  function Ready(slots: Slots): Slots {
    map n | n in slots && !slots[n].maint :: slots[n]
  }

  /** No server vanishes or changes its fixed attributes, and new ones are made
      from a listed server. */
  ghost predicate GrewTo(before: Slots, after: Slots, servers: seq<Listed>) {
    && (forall n :: n in before ==>
      n in after && after[n].backup == before[n].backup && after[n].cookie == before[n].cookie)
    && (forall n :: n in after && n !in before ==>
          exists i :: 0 <= i < |servers| && servers[i].name == n
            && after[n].backup == SlotOf(servers[i]).backup && after[n].cookie == SlotOf(servers[i]).cookie)
  }

  ghost function Grown(before: Slots, servers: seq<Listed>): iset<Slots> {
    iset after: Slots | GrewTo(before, after, servers)
  }

  /** One server set to something with the same fixed attributes. */
  predicate Adjusted(before: Slots, after: Slots, name: string) {
    && name in before && after.Keys == before.Keys
    && after[name].backup == before[name].backup && after[name].cookie == before[name].cookie
    && forall n :: n in before && n != name ==> after[n] == before[n]
  }

  lemma GrownAdd(before: Slots, slots: Slots, servers: seq<Listed>, l: Listed)
    requires slots in Grown(before, servers) && l in servers && l.name !in slots
    ensures slots[l.name := SlotOf(l).(maint := true)] in Grown(before, servers)
  {
    hide SlotOf;
    var i :| 0 <= i < |servers| && servers[i] == l;
  }

  lemma GrownAdjust(before: Slots, slots: Slots, after: Slots, servers: seq<Listed>, name: string)
    requires slots in Grown(before, servers) && Adjusted(slots, after, name)
    ensures after in Grown(before, servers)
  {
    hide SlotOf;
  }

  lemma GrownMaybe(before: Slots, slots: Slots, after: Slots, servers: seq<Listed>, name: string)
    requires slots in Grown(before, servers) && (after == slots || Adjusted(slots, after, name))
    ensures after in Grown(before, servers) && after.Keys == slots.Keys
  {
    hide Grown;
    if after != slots {
      GrownAdjust(before, slots, after, servers, name);
    }
  }

  predicate IsListed(servers: seq<Listed>, n: string) {
    exists i :: 0 <= i < |servers| && servers[i].name == n
  }

  predicate AsListed(slots: Slots, l: Listed) {
    l.name in slots && slots[l.name].addr == l.addr && slots[l.name].weight == l.weight &&
      slots[l.name].maint == l.maint
  }

  /** The listed servers are as listed, and all others rest. */
  ghost predicate Brought(slots: Slots, servers: seq<Listed>) {
    && (forall i :: 0 <= i < |servers| ==> AsListed(slots, servers[i]))
    && (forall n :: n in slots && !IsListed(servers, n) ==> slots[n].maint)
  }

  /** Nothing but this backend changed. */
  predicate Only(before: map<string, Slots>, after: map<string, Slots>, backend: string) {
    backend in after && backend in before && after == before[backend := after[backend]]
  }

  lemma OnlyThen(a: map<string, Slots>, b: map<string, Slots>, c: map<string, Slots>, backend: string)
    requires Only(a, b, backend) && Only(b, c, backend)
    ensures Only(a, c, backend)
  {
  }

  lemma OnlyHas(a: map<string, Slots>, b: map<string, Slots>, backend: string)
    requires Only(a, b, backend)
    ensures backend in a && backend in b
  {
  }

  /** The proxy's control socket. Any command can fail, and a failed one may still
      have taken; the answer to a change of address is not even looked at. */
  /** Servers that can all be told apart, with addresses that the update can take apart. */
  predicate Fit(servers: seq<Listed>) {
    && (forall i, j :: 0 <= i < j < |servers| ==> servers[i].name != servers[j].name)
    && (forall i :: 0 <= i < |servers| ==> SplitHostPort(servers[i].addr).Some?)
  }

  /** One server as listed, and the others as they were. */
  predicate Placed(before: Slots, after: Slots, l: Listed) {
    AsListed(after, l) && forall n :: n in before && n != l.name ==> n in after && after[n] == before[n]
  }

  function Fault(ok: bool): nat {
    if ok then 0 else 1
  }

  class Proxy {
    var backends: map<string, Slots>

    /** How many commands were not answered as they should be, or did not take. */
    ghost var faults: nat

    /** How many workers were started: long connections stay on the old one. */
    ghost var workers: nat

    method Validate() returns (ok: bool)
      modifies this`faults
      ensures faults == old(faults) + Fault(ok)
    {
      ok := *;
      faults := faults + Fault(ok);
    }

    method StartWorker() returns (ok: bool)
      modifies this`faults, this`workers
      ensures faults == old(faults) + Fault(ok) && workers == old(workers) + if ok then 1 else 0
    {
      ok := *;
      faults := faults + Fault(ok);
      workers := workers + if ok then 1 else 0;
    }

    method ServerStates(backend: string) returns (ok: bool, slots: Slots)
      modifies this`faults
      ensures old(faults) <= faults
      ensures ok <==> faults == old(faults) && backend in backends
      ensures ok ==> slots == backends[backend]
    {
      var works: bool := *;
      ok := works && backend in backends;
      slots := if backend in backends then backends[backend] else map[];
      faults := faults + Fault(works);
    }

    /** A server added at run time rests until its state is set. */
    method AddServer(backend: string, l: Listed) returns (ok: bool)
      requires backend in backends
      modifies this`backends, this`faults
      ensures Only(old(backends), backends, backend) && old(faults) <= faults
      ensures backends[backend] == old(backends)[backend] || (l.name !in old(backends)[backend]
        && backends[backend] == old(backends)[backend][l.name := SlotOf(l).(maint := true)])
      ensures ok ==> l.name in backends[backend]
      ensures ok <==> faults == old(faults) && l.name !in old(backends)[backend]
    {
      var took: bool, answered: bool := *, *;
      ok := took && answered && l.name !in backends[backend];
      faults := faults + Fault(took && answered);
      if took && l.name !in backends[backend] {
        backends := backends[backend := backends[backend][l.name := SlotOf(l).(maint := true)]];
      }
    }

    /** Changes one server's address; never says whether it took. */
    method SetAddress(backend: string, name: string, addr: string) returns (ok: bool)
      requires backend in backends
      modifies this`backends, this`faults
      ensures Only(old(backends), backends, backend) && old(faults) <= faults
      ensures backends[backend] == old(backends)[backend] || Adjusted(old(backends)[backend], backends[backend], name)
      ensures !ok ==> faults > old(faults)
      ensures faults == old(faults) && name in backends[backend] ==>
        backends[backend] == old(backends)[backend][name := old(backends)[backend][name].(addr := addr)]
    {
      var took: bool := *;
      ok := *;
      faults := faults + Fault(took && ok);
      if took && name in backends[backend] {
        backends := backends[backend := backends[backend][name := backends[backend][name].(addr := addr)]];
      }
    }

    method SetWeight(backend: string, name: string, weight: string) returns (ok: bool)
      requires backend in backends
      modifies this`backends, this`faults
      ensures Only(old(backends), backends, backend) && old(faults) <= faults
      ensures backends[backend] == old(backends)[backend] || Adjusted(old(backends)[backend], backends[backend], name)
      ensures ok ==> name in backends[backend] && backends[backend][name].weight == weight
      ensures ok <==> faults == old(faults) && name in old(backends)[backend]
      ensures ok ==>
        backends[backend] == old(backends)[backend][name := old(backends)[backend][name].(weight := weight)]
    {
      var took: bool, answered: bool := *, *;
      ok := took && answered && name in backends[backend];
      faults := faults + Fault(took && answered);
      if took && name in backends[backend] {
        backends := backends[backend := backends[backend][name := backends[backend][name].(weight := weight)]];
      }
    }

    method SetState(backend: string, name: string, maint: bool) returns (ok: bool)
      requires backend in backends
      modifies this`backends, this`faults
      ensures Only(old(backends), backends, backend) && old(faults) <= faults
      ensures backends[backend] == old(backends)[backend] || Adjusted(old(backends)[backend], backends[backend], name)
      ensures ok ==> name in backends[backend] && backends[backend][name].maint == maint
      ensures ok <==> faults == old(faults) && name in old(backends)[backend]
      ensures ok ==>
        backends[backend] == old(backends)[backend][name := old(backends)[backend][name].(maint := maint)]
    {
      var took: bool, answered: bool := *, *;
      ok := took && answered && name in backends[backend];
      faults := faults + Fault(took && answered);
      if took && name in backends[backend] {
        backends := backends[backend := backends[backend][name := backends[backend][name].(maint := maint)]];
      }
    }

    /** Adds a server if the backend lacks it. */
    method EnsureServer(backend: string, l: Listed, known: bool, ghost before: Slots,
                        ghost servers: seq<Listed>) returns (ok: bool)
      requires backend in backends && backends[backend] in Grown(before, servers) && l in servers
      modifies this`backends, this`faults
      ensures Only(old(backends), backends, backend) && old(faults) <= faults
      ensures backends[backend] in Grown(before, servers)
      ensures old(backends)[backend].Keys <= backends[backend].Keys <= old(backends)[backend].Keys + {l.name}
      ensures faults == old(faults) && (known <==> l.name in old(backends)[backend]) ==>
        ok && l.name in backends[backend] &&
          forall n :: n in old(backends)[backend] ==> backends[backend][n] == old(backends)[backend][n]
    {
      hide Grown, SlotOf;
      if known {
        return true;
      }
      ok := AddServer(backend, l);
      if backends[backend] != old(backends)[backend] {
        GrownAdd(before, old(backends)[backend], servers, l);
      }
    }

    /** Adds a server if the backend lacks it, and sets its address, weight and
        state. It fails only for a command that fails, an address that cannot be taken
        apart, or a wrong word about whether the backend has the server. */
    method ApplyServer(backend: string, l: Listed, known: bool, ghost before: Slots,
                       ghost servers: seq<Listed>) returns (ok: bool)
      requires backend in backends && backends[backend] in Grown(before, servers) && l in servers
      modifies this`backends, this`faults
      ensures Only(old(backends), backends, backend) && old(faults) <= faults
      ensures backends[backend] in Grown(before, servers)
      ensures old(backends)[backend].Keys <= backends[backend].Keys <= old(backends)[backend].Keys + {l.name}
      ensures faults == old(faults) && (known <==> l.name in old(backends)[backend]) && SplitHostPort(l.addr).Some? ==>
        ok && Placed(old(backends)[backend], backends[backend], l)
    {
      hide Grown, SlotOf, Only, Adjusted;
      ghost var t := backends;
      ok := EnsureServer(backend, l, known, before, servers);
      OnlyHas(t, backends, backend);
      var plausible := SplitHostPort(l.addr).Some?;
      if !ok || !plausible {
        return false;
      }
      ghost var ensured := backends;
      ok := SetServer(backend, l, before, servers);
      OnlyThen(t, ensured, backends, backend);
      OnlyHas(t, backends, backend);
    }

    method SetServer(backend: string, l: Listed, ghost before: Slots, ghost servers: seq<Listed>) returns (ok: bool)
      requires backend in backends && backends[backend] in Grown(before, servers)
      modifies this`backends, this`faults
      ensures Only(old(backends), backends, backend) && old(faults) <= faults
      ensures backends[backend] in Grown(before, servers)
      ensures backends[backend].Keys == old(backends)[backend].Keys
      ensures faults == old(faults) && l.name in old(backends)[backend] ==>
        ok && Placed(old(backends)[backend], backends[backend], l)
    {
      hide Grown, Only, Adjusted;
      ghost var t0 := backends;
      ok := SetAddress(backend, l.name, l.addr);
      ghost var t1 := backends;
      OnlyHas(t0, t1, backend);
      GrownMaybe(before, t0[backend], t1[backend], servers, l.name);
      if !ok {
        return false;
      }
      ok := SetWeight(backend, l.name, l.weight);
      ghost var t2 := backends;
      OnlyThen(t0, t1, t2, backend);
      OnlyHas(t0, t2, backend);
      GrownMaybe(before, t1[backend], t2[backend], servers, l.name);
      if !ok {
        return false;
      }
      ok := SetState(backend, l.name, l.maint);
      OnlyThen(t0, t2, backends, backend);
      OnlyHas(t0, backends, backend);
      GrownMaybe(before, t2[backend], backends[backend], servers, l.name);
    }

    /** Brings one backend to the servers of its section, and checks that it got
        there. With servers that are fit and a backend that is there, it fails only for
        a command that fails. */
    method UpdateServers(text: string) returns (ok: bool)
      modifies this`backends, this`faults
      ensures old(faults) <= faults
      ensures Parse(SplitLines(text)).None? ==> !ok && backends == old(backends)
      ensures Parse(SplitLines(text)).Some? ==>
        var p := Parse(SplitLines(text)).value;
        && (p.backend == "" || p.backend !in old(backends) ==> backends == old(backends) && (ok <==> p.backend == ""))
        && (p.backend != "" && p.backend in old(backends) ==>
              && Only(old(backends), backends, p.backend)
              && backends[p.backend] in Grown(old(backends)[p.backend], p.servers)
              && (ok ==> Brought(backends[p.backend], p.servers))
              && (Fit(p.servers) && faults == old(faults) ==> ok))
    {
      var parsed := BackendServers(text);
      if parsed.None? {
        return false;
      }
      var backend, servers := parsed.value.backend, parsed.value.servers;
      if backend == "" {
        return true;
      }
      var existing: Slots;
      ok, existing := ServerStates(backend);
      if !ok {
        if backend in backends {
          GrownSame(backends[backend], servers);
        }
        return false;
      }
      ok := UpdateListed(backend, servers, existing);
    }

    method UpdateListed(backend: string, servers: seq<Listed>, existing: Slots) returns (ok: bool)
      requires backend in backends && existing == backends[backend]
      modifies this`backends, this`faults
      ensures Only(old(backends), backends, backend) && old(faults) <= faults
      ensures backends[backend] in Grown(existing, servers)
      ensures ok ==> Brought(backends[backend], servers)
      ensures Fit(servers) && faults == old(faults) ==> ok
    {
      hide SlotOf, Grown, IsListed, Placed, SplitHostPort;
      var left := existing.Keys;
      GrownSame(existing, servers);
      assert forall n :: !IsListed(servers[..0], n) by { ListedNone(servers); }
      for i := 0 to |servers|
        invariant Only(old(backends), backends, backend) && old(faults) <= faults
        invariant backends[backend] in Grown(existing, servers)
        invariant forall n :: n in left <==> n in existing && !IsListed(servers[..i], n)
        invariant forall n :: n in backends[backend] ==> n in existing || IsListed(servers[..i], n)
        invariant existing.Keys <= backends[backend].Keys
        invariant Fit(servers) && faults == old(faults) ==>
          forall k :: 0 <= k < i ==> AsListed(backends[backend], servers[k])
      {
        ListedSnoc(servers, i);
        ghost var s := backends[backend];
        if Fit(servers) {
          FreshName(servers, i);
        }
        ok := ApplyServer(backend, servers[i], servers[i].name in left, existing, servers);
        if !ok {
          return false;
        }
        if Fit(servers) && faults == old(faults) {
          OneMorePlaced(servers, i, s, backends[backend]);
        }
        left := left - {servers[i].name};
        forall n | n in backends[backend] ensures n in existing || IsListed(servers[..i + 1], n) {
          assert n in s || n == servers[i].name;
          assert IsListed(servers[..i + 1], n) <==> IsListed(servers[..i], n) || servers[i].name == n;
        }
      }
      assert servers[..|servers|] == servers;
      ghost var s := backends[backend];
      ok := RestOthers(backend, left, existing, servers);
      if !ok {
        return false;
      }
      ok := CheckApplied(backend, servers);
      if Fit(servers) && faults == old(faults) {
        forall k | 0 <= k < |servers| ensures AsListed(backends[backend], servers[k]) {
          assert IsListed(servers, servers[k].name) by { OnTheList(servers, k); }
        }
      }
    }

    /** Whether the proxy now has every listed server as listed. */
    method CheckApplied(backend: string, servers: seq<Listed>) returns (ok: bool)
      modifies this`faults
      ensures old(faults) <= faults
      ensures ok <==>
        && faults == old(faults) && backend in backends
        && (forall i :: 0 <= i < |servers| ==> AsListed(backends[backend], servers[i]))
    {
      var applied: Slots;
      ok, applied := ServerStates(backend);
      if !ok {
        return false;
      }
      for i := 0 to |servers|
        invariant forall k :: 0 <= k < i ==> AsListed(applied, servers[k])
      {
        var l := servers[i];
        if l.name !in applied || applied[l.name].addr != l.addr || applied[l.name].weight != l.weight ||
          applied[l.name].maint != l.maint
        {
          assert !AsListed(applied, servers[i]);
          return false;
        }
      }
      return true;
    }

    /** Puts the servers that are no longer listed to rest. */
    method RestOthers(backend: string, left: set<string>, ghost before: Slots,
                      ghost servers: seq<Listed>) returns (ok: bool)
      requires backend in backends && backends[backend] in Grown(before, servers) && left <= backends[backend].Keys
      modifies this`backends, this`faults
      ensures Only(old(backends), backends, backend) && old(faults) <= faults
      ensures backends[backend] in Grown(before, servers)
      ensures backends[backend].Keys == old(backends)[backend].Keys
      ensures ok ==> forall n :: n in left ==> backends[backend][n].maint
      ensures faults == old(faults) ==> ok
      ensures forall n :: n in old(backends)[backend] && n !in left ==>
        n in backends[backend] && backends[backend][n] == old(backends)[backend][n]
    {
      hide Grown;
      var todo := left;
      ok := true;
      while todo != {}
        invariant ok && todo <= left && old(faults) <= faults
        invariant Only(old(backends), backends, backend)
        invariant backends[backend] in Grown(before, servers)
        invariant backends[backend].Keys == old(backends)[backend].Keys
        invariant forall n :: n in left && n !in todo ==> backends[backend][n].maint
        invariant forall n :: n in old(backends)[backend] && n !in left ==>
          n in backends[backend] && backends[backend][n] == old(backends)[backend][n]
        decreases |todo|
      {
        var name :| name in todo;
        todo := todo - {name};
        ghost var slots := backends[backend];
        ok := SetState(backend, name, true);
        GrownMaybe(before, slots, backends[backend], servers, name);
        if !ok {
          return;
        }
      }
    }
  }

  lemma OnTheList(servers: seq<Listed>, k: nat)
    requires k < |servers|
    ensures IsListed(servers, servers[k].name)
  {
  }

  /** The name of a fit server is not on the list before it. */
  lemma FreshName(servers: seq<Listed>, i: nat)
    requires Fit(servers) && i < |servers|
    ensures !IsListed(servers[..i], servers[i].name)
  {
  }

  lemma OneMorePlaced(servers: seq<Listed>, i: nat, before: Slots, after: Slots)
    requires Fit(servers) && i < |servers| && Placed(before, after, servers[i])
    requires forall k :: 0 <= k < i ==> AsListed(before, servers[k])
    ensures forall k :: 0 <= k <= i ==> AsListed(after, servers[k])
  {
  }

  lemma ListedNone(servers: seq<Listed>)
    ensures forall n :: !IsListed(servers[..0], n)
  {
  }

  lemma GrownSame(slots: Slots, servers: seq<Listed>)
    ensures slots in Grown(slots, servers)
  {
  }

  lemma ListedSnoc(servers: seq<Listed>, i: nat)
    requires i < |servers|
    ensures forall n :: IsListed(servers[..i + 1], n) <==> IsListed(servers[..i], n) || servers[i].name == n
  {
    forall n ensures IsListed(servers[..i + 1], n) <==> IsListed(servers[..i], n) || servers[i].name == n {
      if IsListed(servers[..i], n) {
        var k :| 0 <= k < i && servers[..i][k].name == n;
        assert servers[..i + 1][k].name == n;
      }
      if servers[i].name == n {
        assert servers[..i + 1][i].name == n;
      }
    }
  }
}
