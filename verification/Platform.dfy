/** Docker, the proxy and the state file, as a release reaches them. Every effect
    may fail; which ones do is up to the environment. */
module Platform {
  import opened Rollout
  import opened Requests

  /** A run's outcome; `Undone` is a failed check after which the old containers
      serve again. */
  datatype Outcome = Ok | Failure | Undone(reason: string)

  class Platform {
    var existing: set<string>
    var stopped: set<string>
    var healthy: set<string>
    var accepted: Upstream
    var pending: Upstream
    var saved: DeploymentState

    /** Addresses that may hold requests of the main traffic. */
    var busy: set<string>

    /** The effects since the run began and the world it began in, only to say what
        a run did. */
    ghost var log: Log
    ghost var start: World

    /** How often something that leaves no effect stood in the way of the run: it was
        cancelled, or what it needs could not be read or had. */
    ghost var bars: nat

    function Now(): World
      reads this
    {
      World(existing, stopped, healthy, busy, accepted, saved)
    }

    /** The fields are what the logged effects make of the starting world. */
    ghost predicate Valid()
      reads this
    {
      Now() == Replay(start, log)
    }

    ghost method BeginRun()
      modifies this`log, this`start, this`bars
      ensures Valid() && start == Now() && log == Empty && bars == 0
    {
      start, log, bars := Now(), Empty, 0;
    }

    /** A further run, which does not forget that something stood in the way. */
    ghost method NextRun()
      modifies this`log, this`start
      ensures Valid() && start == Now() && log == Empty
    {
      start, log := Now(), Empty;
    }

    /** Whether the run may go on: not when it was cancelled, or when something it
        needs is not to be had. */
    method MayGoOn() returns (ok: bool)
      modifies this`bars
      ensures bars == old(bars) + if ok then 0 else 1
    {
      ok := *;
      bars := bars + if ok then 0 else 1;
    }

    /** Compose creates containers and starts them. */
    method Create(ids: set<string>)
      modifies this`existing, this`stopped
      ensures existing == old(existing) + ids && stopped == old(stopped) - ids
    {
      existing, stopped := existing + ids, stopped - ids;
    }

    method WaitHealthy(id: string) returns (ok: bool)
      requires Valid()
      modifies this
      ensures Valid() && start == old(start) && log == Then(old(log), Step(Op.WaitHealthy(id), ok))
      ensures pending == old(pending) && bars == old(bars)
    {
      ok := *;
      if ok {
        healthy := healthy + {id};
      }
      log := Then(log, Step(Op.WaitHealthy(id), ok));
    }

    /** Stages a config. Nothing reaches the proxy before `Reload`. */
    method GenerateConfig(u: Upstream) returns (ok: bool)
      requires Valid()
      modifies this
      ensures Valid() && start == old(start) && bars == old(bars)
      ensures ok ==> pending == u && log == old(log)
      ensures !ok ==> pending == old(pending) && log == Then(old(log), Step(Configure(u), false))
    {
      ok := *;
      if ok {
        pending := u;
      } else {
        log := Then(log, Step(Configure(u), false));
      }
    }

    /** Applies the staged config; on failure the proxy keeps the last one. */
    method Reload() returns (ok: bool)
      requires Valid()
      modifies this
      ensures Valid() && start == old(start) && log == Then(old(log), Step(Configure(old(pending)), ok))
      ensures pending == old(pending) && bars == old(bars)
    {
      ok := *;
      if ok {
        accepted := pending;
        busy := busy + AddrSet(Live(accepted.servers));
      }
      log := Then(log, Step(Configure(pending), ok));
    }

    /** Goes through the motions with a provider that has no proxy: nothing fails,
        and nothing changes. */
    method SkipConfig() returns (ok: bool)
      requires Valid()
      modifies this
      ensures ok && Valid() && start == old(start) && log == Then(old(log), Step(NoConfig, true))
      ensures pending == old(pending) && bars == old(bars)
    {
      ok := true;
      log := Then(log, Step(NoConfig, true));
    }

    /** Waits out a drain, a soak or an interval; false when cancelled first. A wait
        of no length is over at once. */
    method Wait(length: int) returns (ok: bool)
      requires Valid()
      modifies this
      ensures Valid() && start == old(start) && log == Then(old(log), Step(Pause(length), ok))
      ensures pending == old(pending) && bars == old(bars)
    {
      ok := *;
      if ok && length > 0 {
        busy := AddrSet(Live(accepted.servers));
      }
      log := Then(log, Step(Pause(length), ok));
    }

    method Stop(id: string) returns (ok: bool)
      requires Valid()
      modifies this
      ensures Valid() && start == old(start) && log == Then(old(log), Step(Op.Stop(id), ok))
      ensures pending == old(pending) && bars == old(bars)
    {
      ok := *;
      if ok {
        stopped := stopped + {id};
      }
      log := Then(log, Step(Op.Stop(id), ok));
    }

    method Remove(id: string) returns (ok: bool)
      requires Valid()
      modifies this
      ensures Valid() && start == old(start) && log == Then(old(log), Step(Op.Remove(id), ok))
      ensures pending == old(pending) && bars == old(bars)
    {
      ok := *;
      if ok {
        existing := existing - {id};
      }
      log := Then(log, Step(Op.Remove(id), ok));
    }

    method Save(ds: DeploymentState) returns (ok: bool)
      requires Valid()
      modifies this
      ensures Valid() && start == old(start) && log == Then(old(log), Step(Op.Save(ds), ok))
      ensures pending == old(pending) && bars == old(bars)
    {
      ok := *;
      if ok {
        saved := ds;
      }
      log := Then(log, Step(Op.Save(ds), ok));
    }

    /** Reads the saved state; false when the file cannot be read. */
    method Load() returns (ok: bool, ds: DeploymentState)
      modifies this`bars
      ensures ds == saved && bars == old(bars) + if ok then 0 else 1
    {
      ok := *;
      ds := saved;
      bars := bars + if ok then 0 else 1;
    }

    /** Runs the check command; an empty reason means it passed. False when the
        run was cancelled meanwhile, and then no result counts. */
    method RunCheck(id: string, token: string) returns (ok: bool, reason: string)
      requires Valid()
      modifies this
      ensures Valid() && start == old(start) && pending == old(pending)
      ensures bars == old(bars) + if ok then 0 else 1
      ensures ok ==> log == Then(old(log), Step(Op.RunCheck(id, token, reason), reason == ""))
      ensures !ok ==> log == old(log)
    {
      ok := *;
      reason := *;
      if ok {
        log := Then(log, Step(Op.RunCheck(id, token, reason), reason == ""));
      }
      bars := bars + if ok then 0 else 1;
    }

    /** Notes that the error window ended, and how. */
    method EndWindow(delivered: seq<Entry>, end: WindowEnd, reason: string, ok: bool)
      requires Valid()
      modifies this
      ensures Valid() && start == old(start) && log == Then(old(log), Step(Watch(delivered, end, reason), ok))
      ensures pending == old(pending) && bars == old(bars)
    {
      if ok && end.Clean? {
        busy := AddrSet(Live(accepted.servers));
      }
      log := Then(log, Step(Watch(delivered, end, reason), ok));
    }
  }
}
