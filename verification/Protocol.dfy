/** Several processes on one state directory: the release queue, the deploy locks,
    and every way their steps can interleave, crashes included. */
module Protocol {
  import opened Rollout

  datatype Key = Key(project: string, service: string)

  /** The lock file of a service. */
  function LockName(key: Key): string {
    if key.project != "" then key.project + "_" + key.service + ".lock" else key.service + ".lock"
  }

  datatype Command = Command(id: string, key: Key, created: int)

  /** What a thread is doing. `queue` holds the commands it saw and has not tried
      yet; `origin` is the command it runs, if a command made it do so. */
  datatype Doing =
    | Resting
    | Polling(queue: seq<Command>)
    | Asked(key: Key, origin: Option<Command>, queue: seq<Command>)
    | Preparing(key: Key, origin: Option<Command>, queue: seq<Command>)
    | Completing(done: Command, queue: seq<Command>)
    | Deploying(key: Key)
    | Refreshing(key: Key)

  datatype Thread = Thread(process: nat, doing: Doing)

  /** The directory as all processes share it, the threads there are, and what has
      happened to commands so far. A lock belongs to the thread that may drop it. */
  datatype System = System(
    threads: map<nat, Thread>,
    locks: map<string, nat>,
    pending: set<Command>,
    processing: set<Command>,
    enqueued: set<string>,
    completed: set<Command>,
    claims: seq<(Command, nat)>)

  /** The service whose lock a thread holds, if any. */
  function Holding(doing: Doing): Option<Key> {
    match doing
    case Preparing(key, _, _) => Some(key)
    case Deploying(key) => Some(key)
    case Refreshing(key) => Some(key)
    case _ => None
  }

  /** The command a thread is running, if any. */
  function Running(doing: Doing): Option<Command> {
    match doing
    case Asked(_, origin, _) => origin
    case Preparing(_, origin, _) => origin
    case Completing(done, _) => Some(done)
    case _ => None
  }

  datatype Action =
    | Start(t: nat, process: nat)
    | Enqueue(cmd: Command)
    | Poll(t: nat, found: seq<Command>)
    | Claim(t: nat)
    | PassOver(t: nat)
    | EndPoll(t: nat)
    | Ask(t: nat, key: Key)
    | Refuse(t: nat)
    | Lock(t: nat)
    | GiveUp(t: nat)
    | HandOver(t: nat, deployer: nat)
    | Complete(t: nat, removed: bool)
    | FinishDeploy(t: nat)
    | Refresh(t: nat, key: Key)
    | FinishRefresh(t: nat)
    | Crash(process: nat)

  function DoingOf(s: System, t: nat): Doing {
    if t in s.threads then s.threads[t].doing else Resting
  }

  function Now(s: System, t: nat, doing: Doing): System
    requires t in s.threads
  {
    s.(threads := s.threads[t := s.threads[t].(doing := doing)])
  }

  /** Where a release goes once it is over or refused: back to the queue it came
      from, or to rest. */
  function AfterRelease(origin: Option<Command>, queue: seq<Command>): Doing {
    if origin.Some? then Completing(origin.value, queue) else Resting
  }

  /** Whether an action can happen. */
  predicate Enabled(s: System, a: Action) {
    match a
    case Start(t, _) => t !in s.threads
    case Enqueue(cmd) => cmd.id !in s.enqueued
    case Poll(t, found) => t in s.threads && s.threads[t].doing.Resting? && forall c :: c in found ==> c in s.pending
    case Claim(t) => t in s.threads && DoingOf(s, t).Polling? && DoingOf(s, t).queue != []
    case PassOver(t) => t in s.threads && DoingOf(s, t).Polling? && DoingOf(s, t).queue != []
    case EndPoll(t) => t in s.threads && DoingOf(s, t) == Polling([])
    case Ask(t, _) => t in s.threads && s.threads[t].doing.Resting?
    case Refuse(t) => t in s.threads && DoingOf(s, t).Asked?
    case Lock(t) => t in s.threads && DoingOf(s, t).Asked?
    case GiveUp(t) => t in s.threads && DoingOf(s, t).Preparing?
    case HandOver(t, deployer) => t in s.threads && DoingOf(s, t).Preparing? && deployer !in s.threads
    case Complete(t, _) => t in s.threads && DoingOf(s, t).Completing?
    case FinishDeploy(t) => t in s.threads && DoingOf(s, t).Deploying?
    case Refresh(t, _) => t in s.threads && s.threads[t].doing.Resting?
    case FinishRefresh(t) => t in s.threads && DoingOf(s, t).Refreshing?
    case Crash(_) => true
  }

  /** Renaming a command file claims it: it succeeds for one thread only, since the
      file is gone for all others. */
  function AfterClaim(s: System, t: nat): System
    requires t in s.threads && DoingOf(s, t).Polling? && DoingOf(s, t).queue != []
  {
    var queue := DoingOf(s, t).queue;
    var cmd := queue[0];
    if cmd in s.pending then
      Now(s, t, Asked(cmd.key, Some(cmd), queue[1..]))
      .(pending := s.pending - {cmd}, processing := s.processing + {cmd}, claims := s.claims + [(cmd, t)])
    else Now(s, t, Polling(queue[1..]))
  }

  /** Taking a lock fails at once when anyone holds it. */
  function AfterLock(s: System, t: nat): System
    requires t in s.threads && DoingOf(s, t).Asked?
  {
    var d := DoingOf(s, t);
    if LockName(d.key) in s.locks then Now(s, t, AfterRelease(d.origin, d.queue))
    else Now(s, t, Preparing(d.key, d.origin, d.queue)).(locks := s.locks[LockName(d.key) := t])
  }

  function After(s: System, a: Action): System
    requires Enabled(s, a)
  {
    match a
    case Start(t, process) => s.(threads := s.threads[t := Thread(process, Resting)])
    case Enqueue(cmd) => s.(pending := s.pending + {cmd}, enqueued := s.enqueued + {cmd.id})
    case Poll(t, found) => Now(s, t, Polling(found))
    case Claim(t) => AfterClaim(s, t)
    case PassOver(t) => Now(s, t, Polling(DoingOf(s, t).queue[1..]))
    case EndPoll(t) => Now(s, t, Resting)
    case Ask(t, key) => Now(s, t, Asked(key, None, []))
    case Refuse(t) => Now(s, t, AfterRelease(DoingOf(s, t).origin, DoingOf(s, t).queue))
    case Lock(t) => AfterLock(s, t)
    case GiveUp(t) =>
      var d := DoingOf(s, t);
      Now(s, t, AfterRelease(d.origin, d.queue)).(locks := s.locks - {LockName(d.key)})
    case HandOver(t, deployer) =>
      var d := DoingOf(s, t);
      s.(threads := s.threads[t := s.threads[t].(doing := AfterRelease(d.origin, d.queue))]
                             [deployer := Thread(s.threads[t].process, Deploying(d.key))],
         locks := s.locks[LockName(d.key) := deployer])
    case Complete(t, removed) =>
      var d := DoingOf(s, t);
      if removed then
        Now(s, t, Polling(d.queue)).(processing := s.processing - {d.done}, completed := s.completed + {d.done})
      else Now(s, t, Polling(d.queue))
    case FinishDeploy(t) => s.(threads := s.threads - {t}, locks := s.locks - {LockName(DoingOf(s, t).key)})
    case Refresh(t, key) =>
      if LockName(key) in s.locks then s
      else Now(s, t, Refreshing(key)).(locks := s.locks[LockName(key) := t])
    case FinishRefresh(t) => Now(s, t, Resting).(locks := s.locks - {LockName(DoingOf(s, t).key)})
    case Crash(process) =>
      s.(threads := map t | t in s.threads && s.threads[t].process != process :: s.threads[t],
         locks := map l | l in s.locks && s.locks[l] in s.threads &&
           s.threads[s.locks[l]].process != process :: s.locks[l])
  }

  const EMPTY := System(map[], map[], {}, {}, {}, {}, [])

  /** The system after a run, if every action of it could happen. */
  function Run(actions: seq<Action>): Option<System> {
    if actions == [] then Some(EMPTY)
    else
      var s := Run(actions[..|actions| - 1]);
      var a := actions[|actions| - 1];
      if s.Some? && Enabled(s.value, a) then Some(After(s.value, a)) else None
  }

  // ---------------------------------------------------------------- locking

  /** Locks and threads agree on who holds what. */
  ghost predicate LocksMatch(s: System) {
    && (forall t :: t in s.threads && Holding(s.threads[t].doing).Some? ==>
          LockName(Holding(s.threads[t].doing).value) in s.locks &&
            s.locks[LockName(Holding(s.threads[t].doing).value)] == t)
    && (forall l :: l in s.locks ==>
          && s.locks[l] in s.threads
          && Holding(s.threads[s.locks[l]].doing).Some? && LockName(Holding(s.threads[s.locks[l]].doing).value) == l)
  }

  /** Actions that neither take nor drop a lock. */
  predicate LockFree(a: Action) {
    a.Start? || a.Enqueue? || a.Poll? || a.Claim? || a.PassOver? || a.EndPoll? || a.Ask? || a.Refuse? || a.Complete?
  }

  lemma LockFreeKeeps(s: System, a: Action)
    requires LocksMatch(s) && Enabled(s, a) && LockFree(a)
    ensures LocksMatch(After(s, a))
  {
    hide LockName;
    assert After(s, a).locks == s.locks;
  }

  lemma TakingKeeps(s: System, a: Action)
    requires LocksMatch(s) && Enabled(s, a) && (a.Lock? || a.Refresh?)
    ensures LocksMatch(After(s, a))
  {
    hide LockName;
  }

  lemma DroppingKeeps(s: System, a: Action)
    requires LocksMatch(s) && Enabled(s, a) && (a.GiveUp? || a.FinishDeploy? || a.FinishRefresh?)
    ensures LocksMatch(After(s, a))
  {
    hide LockName;
  }

  lemma HandingOverKeeps(s: System, a: Action)
    requires LocksMatch(s) && Enabled(s, a) && a.HandOver?
    ensures LocksMatch(After(s, a))
  {
    hide LockName;
  }

  lemma CrashKeeps(s: System, a: Action)
    requires LocksMatch(s) && Enabled(s, a) && a.Crash?
    ensures LocksMatch(After(s, a))
  {
    hide LockName;
  }

  lemma KeepsLocks(s: System, a: Action)
    requires LocksMatch(s) && Enabled(s, a)
    ensures LocksMatch(After(s, a))
  {
    hide LocksMatch, After, Enabled;
    if LockFree(a) {
      LockFreeKeeps(s, a);
    } else if a.Lock? || a.Refresh? {
      TakingKeeps(s, a);
    } else if a.HandOver? {
      HandingOverKeeps(s, a);
    } else if a.Crash? {
      CrashKeeps(s, a);
    } else {
      DroppingKeeps(s, a);
    }
  }

  // ----------------------------------------------------------------- queue

  predicate Known(s: System, c: Command) {
    c in s.pending || c in s.processing || c in s.completed
  }

  /** Every command is in one place. */
  ghost predicate InOnePlace(s: System) {
    && (forall c :: Known(s, c) ==> c.id in s.enqueued)
    && s.pending !! s.processing && s.pending !! s.completed && s.processing !! s.completed
  }

  /** Commands have their own ids. */
  ghost predicate OwnIds(s: System) {
    forall c, e :: Known(s, c) && Known(s, e) && c.id == e.id ==> c == e
  }

  /** Exactly the claimed commands are under way or done, and none was claimed
      twice. */
  ghost predicate ClaimedOnce(s: System) {
    && (forall c :: c in s.processing || c in s.completed <==> exists i :: 0 <= i < |s.claims| && s.claims[i].0 == c)
    && (forall i, j :: 0 <= i < j < |s.claims| ==> s.claims[i].0 != s.claims[j].0)
  }

  /** A command is run by the thread that claimed it. */
  ghost predicate RunByClaimant(s: System) {
    forall t :: t in s.threads && Running(s.threads[t].doing).Some? ==>
      Running(s.threads[t].doing).value in s.processing && (Running(s.threads[t].doing).value, t) in s.claims
  }

  ghost predicate QueueSound(s: System) {
    InOnePlace(s) && OwnIds(s) && ClaimedOnce(s) && RunByClaimant(s)
  }

  lemma KeepsPlaces(s: System, a: Action)
    requires QueueSound(s) && Enabled(s, a)
    ensures InOnePlace(After(s, a)) && OwnIds(After(s, a))
  {
    hide LockName, ClaimedOnce;
  }

  lemma KeepsClaims(s: System, a: Action)
    requires QueueSound(s) && Enabled(s, a)
    ensures ClaimedOnce(After(s, a))
  {
    hide LockName;
    var after := After(s, a);
    if a.Claim? && DoingOf(s, a.t).queue[0] in s.pending {
      var cmd := DoingOf(s, a.t).queue[0];
      assert after.claims == s.claims + [(cmd, a.t)];
      forall c ensures c in after.processing || c in after.completed <==>
        exists i :: 0 <= i < |after.claims| && after.claims[i].0 == c
      {
        if c == cmd {
          assert after.claims[|s.claims|].0 == c;
        } else if c in s.processing || c in s.completed {
          var i :| 0 <= i < |s.claims| && s.claims[i].0 == c;
          assert after.claims[i].0 == c;
        }
      }
    } else {
      assert after.claims == s.claims;
    }
  }

  lemma KeepsRunners(s: System, a: Action)
    requires QueueSound(s) && Enabled(s, a)
    ensures RunByClaimant(After(s, a))
  {
    if a.Complete? {
      hide LockName, InOnePlace, OwnIds;
    } else {
      OthersKeepRunners(s, a);
    }
  }

  lemma OthersKeepRunners(s: System, a: Action)
    requires RunByClaimant(s) && Enabled(s, a) && !a.Complete?
    ensures RunByClaimant(After(s, a))
  {
    hide LockName;
  }

  lemma KeepsQueue(s: System, a: Action)
    requires QueueSound(s) && Enabled(s, a)
    ensures QueueSound(After(s, a))
  {
    hide After, InOnePlace, OwnIds, ClaimedOnce, RunByClaimant;
    KeepsPlaces(s, a);
    KeepsClaims(s, a);
    KeepsRunners(s, a);
  }

  // --------------------------------------------------------------- theorems

  lemma {:induction false} RunsAreSound(actions: seq<Action>)
    requires Run(actions).Some?
    ensures LocksMatch(Run(actions).value) && QueueSound(Run(actions).value)
  {
    hide After, LocksMatch, QueueSound, Enabled;
    if actions == [] {
      EmptySound();
    } else {
      RunsAreSound(actions[..|actions| - 1]);
      var s := Run(actions[..|actions| - 1]).value;
      KeepsLocks(s, actions[|actions| - 1]);
      KeepsQueue(s, actions[|actions| - 1]);
    }
  }

  lemma EmptySound()
    ensures LocksMatch(EMPTY) && QueueSound(EMPTY)
  {
  }

  /** Mutual exclusion. However any number of processes interleave and crash, no
      two threads are inside a release, a deploy or a refresh of the same service
      at once. */
  lemma MutualExclusion(actions: seq<Action>, t: nat, u: nat, key: Key)
    requires Run(actions).Some? && t in Run(actions).value.threads && u in Run(actions).value.threads
    requires Holding(Run(actions).value.threads[t].doing) == Some(key) &&
      Holding(Run(actions).value.threads[u].doing) == Some(key)
    ensures t == u
  {
    hide Run;
    RunsAreSound(actions);
  }

  ghost predicate OneRunner(s: System) {
    forall t, u :: t in s.threads && u in s.threads ==>
      Running(s.threads[t].doing).Some? && Running(s.threads[t].doing) == Running(s.threads[u].doing) ==> t == u
  }

  /** Each queued command is claimed at most once, by one thread, and no two
      threads ever run the same one. */
  lemma CommandsRunOnce(actions: seq<Action>)
    requires Run(actions).Some?
    ensures forall i, j :: 0 <= i < j < |Run(actions).value.claims| ==>
      Run(actions).value.claims[i].0.id != Run(actions).value.claims[j].0.id
    ensures OneRunner(Run(actions).value)
  {
    hide Run;
    RunsAreSound(actions);
    var s := Run(actions).value;
    forall i, j | 0 <= i < j < |s.claims| ensures s.claims[i].0.id != s.claims[j].0.id {
      assert Known(s, s.claims[i].0) && Known(s, s.claims[j].0);
    }
    forall t, u | t in s.threads && u in s.threads && Running(s.threads[t].doing).Some? &&
      Running(s.threads[t].doing) == Running(s.threads[u].doing)
      ensures t == u
    {
      var c := Running(s.threads[t].doing).value;
      var i :| 0 <= i < |s.claims| && s.claims[i] == (c, t);
      var j :| 0 <= j < |s.claims| && s.claims[j] == (c, u);
    }
  }

  /** A crash never leaves a service locked: a lock is held by a live thread, so
      once no thread is inside a service its lock can be taken. */
  lemma CrashFreesLocks(actions: seq<Action>, key: Key)
    requires Run(actions).Some?
    requires forall t :: t in Run(actions).value.threads ==>
      Holding(Run(actions).value.threads[t].doing).None? ||
        LockName(Holding(Run(actions).value.threads[t].doing).value) != LockName(key)
    ensures LockName(key) !in Run(actions).value.locks
  {
    hide Run;
    RunsAreSound(actions);
  }

  /** Whether a claimed command is still in someone's hands. */
  ghost predicate InHand(s: System, c: Command) {
    exists t :: t in s.threads && Running(s.threads[t].doing) == Some(c)
  }

  /** Action `i` of the run is the claim of `c`, by a thread of this process. */
  ghost predicate ClaimedAt(actions: seq<Action>, i: nat, c: Command, process: nat) {
    && i < |actions| && actions[i].Claim? && Run(actions[..i]).Some?
    && var s := Run(actions[..i]).value;
       && actions[i].t in s.threads && s.threads[actions[i].t].process == process
       && DoingOf(s, actions[i].t).Polling? && DoingOf(s, actions[i].t).queue != []
       && DoingOf(s, actions[i].t).queue[0] == c && c in s.pending
  }

  /** The process that claimed the command crashed later on. */
  ghost predicate Stranded(actions: seq<Action>, c: Command) {
    exists i: nat, j: nat, process: nat :: ClaimedAt(actions, i, c, process) && i < j < |actions| &&
      actions[j] == Crash(process)
  }

  lemma ClaimedBefore(actions: seq<Action>, a: Action, i: nat, c: Command, process: nat)
    requires i < |actions|
    ensures ClaimedAt(actions + [a], i, c, process) <==> ClaimedAt(actions, i, c, process)
  {
    assert (actions + [a])[..i] == actions[..i];
  }

  /** The claim a step makes, if it makes one. */
  ghost predicate Claims(s: System, a: Action, c: Command) {
    && a.Claim? && a.t in s.threads && DoingOf(s, a.t).Polling? && DoingOf(s, a.t).queue != []
    && DoingOf(s, a.t).queue[0] == c && c in s.pending
  }

  lemma ClaimedLast(actions: seq<Action>, a: Action, c: Command)
    requires Run(actions).Some?
    ensures forall process :: ClaimedAt(actions + [a], |actions|, c, process) <==>
      Claims(Run(actions).value, a, c) && Run(actions).value.threads[a.t].process == process
  {
    assert (actions + [a])[..|actions|] == actions;
  }

  /** A claimed command never waits again. */
  lemma {:induction false} ClaimedOnceOnly(actions: seq<Action>, i: nat, c: Command, process: nat)
    requires Run(actions).Some? && ClaimedAt(actions, i, c, process)
    ensures c in Run(actions).value.processing || c in Run(actions).value.completed
  {
    hide After, Enabled, QueueSound, ClaimedAt, Claims;
    ClaimedInRange(actions, i, c, process);
    var before, a := actions[..|actions| - 1], actions[|actions| - 1];
    assert actions == before + [a];
    RunsAreSound(before);
    if i < |before| {
      ClaimedBefore(before, a, i, c, process);
      ClaimedOnceOnly(before, i, c, process);
      StaysClaimed(Run(before).value, a, c);
    } else {
      ClaimedLast(before, a, c);
      ClaimTakes(Run(before).value, a, c);
    }
  }

  lemma ClaimedInRange(actions: seq<Action>, i: nat, c: Command, process: nat)
    requires ClaimedAt(actions, i, c, process)
    ensures i < |actions|
  {
  }

  lemma StaysClaimed(s: System, a: Action, c: Command)
    requires Enabled(s, a) && (c in s.processing || c in s.completed)
    ensures c in After(s, a).processing || c in After(s, a).completed
  {
    hide LockName;
  }

  lemma ClaimTakes(s: System, a: Action, c: Command)
    requires Enabled(s, a) && Claims(s, a, c)
    ensures a.Claim? && a.t in s.threads
    ensures c in After(s, a).processing && Running(DoingOf(After(s, a), a.t)) == Some(c)
    ensures a.t in After(s, a).threads && After(s, a).threads[a.t].process == s.threads[a.t].process
  {
  }

  // What a step does to a command under way: a new claim puts it in hand, and only
  // the crash of its process or a failed removal takes it out of a thread's hands.

  lemma UnderWay(s: System, a: Action, c: Command)
    requires Enabled(s, a) && c in After(s, a).processing
    ensures c in s.processing || Claims(s, a, c)
  {
    hide LockName;
  }

  /** A thread that is done with a command but cannot remove its file. */
  ghost predicate LetsGo(s: System, a: Action, c: Command) {
    a.Complete? && !a.removed && a.t in s.threads && DoingOf(s, a.t).Completing? && DoingOf(s, a.t).done == c
  }

  lemma KeptInHand(s: System, a: Action, c: Command, t: nat)
    requires Enabled(s, a) && c in After(s, a).processing && !LetsGo(s, a, c)
    requires t in s.threads && Running(s.threads[t].doing) == Some(c) && a != Crash(s.threads[t].process)
    ensures t in After(s, a).threads && Running(After(s, a).threads[t].doing) == Some(c)
  {
    hide LockName;
  }

  lemma WasInHand(s: System, a: Action, c: Command, t: nat)
    requires Enabled(s, a) && !Claims(s, a, c)
    requires t in After(s, a).threads && Running(After(s, a).threads[t].doing) == Some(c)
    ensures t in s.threads && Running(s.threads[t].doing) == Some(c)
    ensures s.threads[t].process == After(s, a).threads[t].process && a != Crash(s.threads[t].process)
  {
    hide LockName;
  }

  /** The threads that have a command in hand are of the process that claimed it,
      which has not crashed since. */
  ghost predicate HeldByClaimant(actions: seq<Action>, c: Command, process: nat) {
    && (exists i: nat :: ClaimedAt(actions, i, c, process))
    && (forall i: nat, p: nat :: ClaimedAt(actions, i, c, p) ==> p == process)
    && (forall i: nat, j: nat :: ClaimedAt(actions, i, c, process) && i < j < |actions| ==>
      actions[j] != Crash(process))
  }

  lemma StillHeld(actions: seq<Action>, a: Action, c: Command, process: nat)
    requires Run(actions).Some? && HeldByClaimant(actions, c, process) && a != Crash(process)
    requires !Claims(Run(actions).value, a, c)
    ensures HeldByClaimant(actions + [a], c, process)
  {
    hide ClaimedAt, Run, Claims;
    var longer := actions + [a];
    forall i: nat, p: nat | ClaimedAt(longer, i, c, p) ensures i < |actions| && ClaimedAt(actions, i, c, p) {
      ClaimedInRange(longer, i, c, p);
      if i < |actions| {
        ClaimedBefore(actions, a, i, c, p);
      } else {
        ClaimedLast(actions, a, c);
        assert false;
      }
    }
    var i: nat :| ClaimedAt(actions, i, c, process);
    ClaimedInRange(actions, i, c, process);
    ClaimedBefore(actions, a, i, c, process);
  }

  lemma NewlyHeld(actions: seq<Action>, a: Action, c: Command)
    requires Run(actions).Some? && QueueSound(Run(actions).value) && Claims(Run(actions).value, a, c)
    ensures HeldByClaimant(actions + [a], c, Run(actions).value.threads[a.t].process)
  {
    hide ClaimedAt, Run;
    var longer, s := actions + [a], Run(actions).value;
    ClaimedLast(actions, a, c);
    assert ClaimedAt(longer, |actions|, c, s.threads[a.t].process);
    forall i: nat, p: nat | ClaimedAt(longer, i, c, p) ensures i == |actions| {
      ClaimedInRange(longer, i, c, p);
      if i < |actions| {
        ClaimedBefore(actions, a, i, c, p);
        ClaimedOnceOnly(actions, i, c, p);
      }
    }
  }

  lemma StrandedBy(actions: seq<Action>, a: Action, c: Command, process: nat)
    requires HeldByClaimant(actions, c, process) && a == Crash(process)
    ensures Stranded(actions + [a], c)
  {
    hide ClaimedAt;
    var i: nat :| ClaimedAt(actions, i, c, process);
    ClaimedInRange(actions, i, c, process);
    ClaimedBefore(actions, a, i, c, process);
    assert (actions + [a])[|actions|] == Crash(process);
  }

  lemma StillStranded(actions: seq<Action>, a: Action, c: Command)
    requires Stranded(actions, c)
    ensures Stranded(actions + [a], c)
  {
    hide ClaimedAt;
    var i: nat, j: nat, process: nat :| ClaimedAt(actions, i, c, process) && i < j < |actions| &&
      actions[j] == Crash(process);
    ClaimedBefore(actions, a, i, c, process);
    assert (actions + [a])[j] == Crash(process);
  }

  /** Some thread was done with the command and could not remove its file. */
  ghost predicate LeftBehind(actions: seq<Action>, c: Command) {
    exists i: nat :: LeftAt(actions, i, c)
  }

  ghost predicate LeftAt(actions: seq<Action>, i: nat, c: Command) {
    i < |actions| && Run(actions[..i]).Some? && LetsGo(Run(actions[..i]).value, actions[i], c)
  }

  lemma LeftBefore(actions: seq<Action>, a: Action, c: Command)
    requires Run(actions).Some? && (LeftBehind(actions, c) || LetsGo(Run(actions).value, a, c))
    ensures LeftBehind(actions + [a], c)
  {
    var longer := actions + [a];
    if LeftBehind(actions, c) {
      var i: nat :| LeftAt(actions, i, c);
      assert longer[..i] == actions[..i];
      assert LeftAt(longer, i, c);
    } else {
      assert longer[..|actions|] == actions;
      assert LeftAt(longer, |actions|, c);
    }
  }

  lemma LetsGoLeaves(s: System, a: Action, c: Command)
    requires QueueSound(s) && Enabled(s, a) && LetsGo(s, a, c)
    ensures c in After(s, a).processing && !InHand(After(s, a), c)
  {
    OnlyRunner(s, c, a.t);
  }

  lemma {:induction false} EarlierRuns(actions: seq<Action>, k: nat)
    requires Run(actions).Some? && k <= |actions|
    ensures Run(actions[..k]).Some?
    decreases |actions|
  {
    if k < |actions| {
      var before := actions[..|actions| - 1];
      EarlierRuns(before, k);
      assert before[..k] == actions[..k];
    } else {
      assert actions[..k] == actions;
    }
  }

  /** A command left behind is in nobody's hands for ever. */
  lemma LeftIsStray(actions: seq<Action>, c: Command)
    requires Run(actions).Some? && LeftBehind(actions, c)
    ensures c in Run(actions).value.processing && !InHand(Run(actions).value, c)
  {
    hide After, QueueSound, InHand, LetsGo;
    var i: nat :| LeftAt(actions, i, c);
    var upto := actions[..i + 1];
    EarlierRuns(actions, i + 1);
    assert upto[..|upto| - 1] == actions[..i] && upto[|upto| - 1] == actions[i];
    RunsAreSound(actions[..i]);
    LetsGoLeaves(Run(actions[..i]).value, actions[i], c);
    StrayForEver(upto, actions, c);
  }

  /** Of every run: a command under way is in the hands of threads of the process
      that claimed it, or that process crashed, or the command was left behind. */
  lemma {:induction false} HeldOrStranded(actions: seq<Action>, c: Command)
    requires Run(actions).Some? && c in Run(actions).value.processing
    ensures forall t :: t in Run(actions).value.threads && Running(Run(actions).value.threads[t].doing) == Some(c) ==>
      HeldByClaimant(actions, c, Run(actions).value.threads[t].process)
    ensures InHand(Run(actions).value, c) || Stranded(actions, c) || LeftBehind(actions, c)
    decreases |actions|
  {
    hide After, Enabled, QueueSound, Claims, ClaimedAt, HeldByClaimant, Stranded, LetsGo, LeftBehind;
    var before, a := actions[..|actions| - 1], actions[|actions| - 1];
    assert actions == before + [a];
    RunsAreSound(before);
    var s, now := Run(before).value, Run(actions).value;
    UnderWay(s, a, c);
    if Claims(s, a, c) {
      RunsAreSound(actions);
      ClaimTakes(s, a, c);
      NewlyHeld(before, a, c);
      OnlyRunner(now, c, a.t);
    } else {
      HeldOrStranded(before, c);
      forall t | t in now.threads && Running(now.threads[t].doing) == Some(c)
        ensures HeldByClaimant(actions, c, now.threads[t].process)
      {
        WasInHand(s, a, c, t);
        StillHeld(before, a, c, now.threads[t].process);
      }
      if InHand(s, c) {
        var t :| t in s.threads && Running(s.threads[t].doing) == Some(c);
        if a == Crash(s.threads[t].process) {
          StrandedBy(before, a, c, s.threads[t].process);
        } else if LetsGo(s, a, c) {
          LeftBefore(before, a, c);
        } else {
          KeptInHand(s, a, c, t);
        }
      } else if Stranded(before, c) {
        StillStranded(before, a, c);
      } else {
        LeftBefore(before, a, c);
      }
    }
  }

  lemma OnlyRunner(s: System, c: Command, t: nat)
    requires QueueSound(s) && t in s.threads && Running(s.threads[t].doing) == Some(c)
    ensures forall u :: u in s.threads && Running(s.threads[u].doing) == Some(c) ==> u == t
  {
    forall u | u in s.threads && Running(s.threads[u].doing) == Some(c) ensures u == t {
      var i :| 0 <= i < |s.claims| && s.claims[i] == (c, t);
      var j :| 0 <= j < |s.claims| && s.claims[j] == (c, u);
    }
  }

  /** Over all runs: a command under way is in nobody's hands exactly when the process
      that claimed it crashed after the claim, or the thread that was done with it
      could not remove its file. */
  lemma StrayExactly(actions: seq<Action>, c: Command)
    requires Run(actions).Some? && c in Run(actions).value.processing
    ensures !InHand(Run(actions).value, c) <==> Stranded(actions, c) || LeftBehind(actions, c)
  {
    hide Run, ClaimedAt, LeftBehind;
    HeldOrStranded(actions, c);
    if LeftBehind(actions, c) {
      LeftIsStray(actions, c);
    }
  }

  /** So without crashes and failed removals every claimed command is in someone's hands
      till it is done. */
  lemma NoCrashNoStrayCommand(actions: seq<Action>)
    requires Run(actions).Some?
    requires forall i :: 0 <= i < |actions| ==> !actions[i].Crash? && !(actions[i].Complete? && !actions[i].removed)
    ensures forall c :: c in Run(actions).value.processing ==> InHand(Run(actions).value, c)
  {
    hide Run, ClaimedAt, InHand;
    forall c | c in Run(actions).value.processing ensures InHand(Run(actions).value, c) {
      StrayExactly(actions, c);
    }
  }

  /** A claim, and what may follow it. */
  function ClaimRun(c: Command): seq<Action> {
    [Action.Start(0, 0), Enqueue(c), Poll(0, [c]), Claim(0)]
  }

  lemma RunOn(actions: seq<Action>, a: Action)
    requires Run(actions).Some? && Enabled(Run(actions).value, a)
    ensures Run(actions + [a]) == Some(After(Run(actions).value, a))
  {
    assert (actions + [a])[..|actions|] == actions;
  }

  /** The system once a command waits, and a thread has seen it. */
  function Seen(c: Command): System {
    System(map[0 := Thread(0, Polling([c]))], map[], {c}, {}, {c.id}, {}, [])
  }

  lemma SeenRuns(c: Command)
    ensures Run([Action.Start(0, 0), Enqueue(c), Poll(0, [c])]) == Some(Seen(c))
  {
    hide LockName, Run;
    var started := System(map[0 := Thread(0, Resting)], map[], {}, {}, {}, {}, []);
    var waiting := System(map[0 := Thread(0, Resting)], map[], {c}, {}, {c.id}, {}, []);
    var start, enqueue, poll := Action.Start(0, 0), Enqueue(c), Poll(0, [c]);
    NothingRuns();
    RunOn([], start);
    assert [] + [start] == [start] && After(EMPTY, start) == started;
    RunOn([start], enqueue);
    assert [start] + [enqueue] == [start, enqueue] && After(started, enqueue) == waiting;
    RunOn([start, enqueue], poll);
    assert [start, enqueue] + [poll] == [start, enqueue, poll] && After(waiting, poll) == Seen(c);
  }

  lemma NothingRuns()
    ensures Run([]) == Some(EMPTY)
  {
  }

  lemma ClaimRuns(c: Command)
    ensures Run(ClaimRun(c)).Some?
    ensures var s := Run(ClaimRun(c)).value;
      && c in s.processing && (forall t :: t in s.threads <==> t == 0)
      && s.threads[0] == Thread(0, Asked(c.key, Some(c), []))
  {
    hide LockName, Run;
    SeenRuns(c);
    RunOn([Action.Start(0, 0), Enqueue(c), Poll(0, [c])], Claim(0));
    assert [Action.Start(0, 0), Enqueue(c), Poll(0, [c])] + [Claim(0)] == ClaimRun(c);
    assert [c][1..] == [];
  }

  /** A run that strands a command: its process crashes right after the claim. */
  lemma StrandingRunStrands(c: Command)
    ensures Run(ClaimRun(c) + [Crash(0)]).Some?
    ensures var s := Run(ClaimRun(c) + [Crash(0)]).value; c in s.processing && !InHand(s, c)
  {
    hide Run;
    ClaimRuns(c);
    RunOn(ClaimRun(c), Crash(0));
  }

  /** And one that leaves a command behind: the release is refused, and the file of the
      command cannot be removed. */
  lemma LeavingRunLeaves(c: Command)
    ensures Run(ClaimRun(c) + [Refuse(0)] + [Complete(0, false)]).Some?
    ensures var s := Run(ClaimRun(c) + [Refuse(0)] + [Complete(0, false)]).value; c in s.processing && !InHand(s, c)
  {
    hide Run;
    ClaimRuns(c);
    RunOn(ClaimRun(c), Refuse(0));
    RunOn(ClaimRun(c) + [Refuse(0)], Complete(0, false));
  }

  lemma StrayStep(s: System, a: Action, c: Command)
    requires QueueSound(s) && Enabled(s, a) && c in s.processing && !InHand(s, c)
    ensures c in After(s, a).processing && !InHand(After(s, a), c)
  {
    hide LockName, OwnIds, ClaimedOnce;
  }

  /** A command that nobody has in hand stays so for ever. */
  lemma {:induction false} StrayForEver(before: seq<Action>, after: seq<Action>, c: Command)
    requires Run(before).Some? && c in Run(before).value.processing && !InHand(Run(before).value, c)
    requires before <= after && Run(after).Some?
    ensures c in Run(after).value.processing && !InHand(Run(after).value, c)
    decreases |after|
  {
    hide After, QueueSound, Enabled, InHand;
    if after != before {
      var shorter := after[..|after| - 1];
      StrayForEver(before, shorter, c);
      RunsAreSound(shorter);
      StrayStep(Run(shorter).value, after[|after| - 1], c);
    }
  }

  // ------------------------------------------------------------- lock files

  /** The first service's own name swallows the start of the second one's. */
  ghost predicate RunsInto(k: Key, l: Key) {
    if k.project == "" then l.project != "" && k.service == l.project + "_" + l.service
    else exists x: string :: l.project == k.project + "_" + x && k.service == x + "_" + l.service
  }

  /** Two services share a lock file exactly when they are the same, or the names of
      one run into those of the other. */
  lemma LockNamesExactly(k: Key, l: Key)
    ensures LockName(k) == LockName(l) <==> k == l || RunsInto(k, l) || RunsInto(l, k)
  {
    hide RunsInto;
    Unlocked(LockText(k), LockText(l));
    if LockName(k) == LockName(l) {
      if k.project == "" || l.project == "" {
        NoProject(k, l);
      } else if |k.project| <= |l.project| {
        Overlap(k, l);
      } else {
        Overlap(l, k);
      }
    }
    if RunsInto(k, l) {
      RunTogether(k, l);
    }
    if RunsInto(l, k) {
      RunTogether(l, k);
    }
  }

  /** The name of a lock file without its ending. */
  function LockText(key: Key): (r: string)
    ensures LockName(key) == r + ".lock"
  {
    if key.project != "" then key.project + "_" + key.service else key.service
  }

  lemma Unlocked(a: string, b: string)
    ensures a + ".lock" == b + ".lock" <==> a == b
  {
    if a + ".lock" == b + ".lock" {
      assert |a| == |b|;
      assert a == (a + ".lock")[..|a|] == (b + ".lock")[..|b|] == b;
    }
  }

  lemma NoProject(k: Key, l: Key)
    requires LockText(k) == LockText(l) && (k.project == "" || l.project == "")
    ensures k == l || RunsInto(k, l) || RunsInto(l, k)
  {
  }

  lemma Overlap(k: Key, l: Key)
    requires LockText(k) == LockText(l) && k.project != "" && l.project != "" && |k.project| <= |l.project|
    ensures k == l || RunsInto(k, l)
  {
    var n := |k.project|;
    assert k.project == LockText(k)[..n] == LockText(l)[..n] == l.project[..n];
    assert k.service == LockText(k)[n + 1..];
    if n == |l.project| {
      assert l.service == LockText(l)[n + 1..];
    } else {
      var x := l.project[n + 1..];
      assert l.project[n] == LockText(l)[n] == LockText(k)[n] == '_';
      assert l.project == k.project + "_" + x;
      assert LockText(l)[n + 1..] == x + "_" + l.service;
    }
  }

  lemma RunTogether(k: Key, l: Key)
    requires RunsInto(k, l)
    ensures LockText(k) == LockText(l)
  {
    if k.project != "" {
      var x: string :| l.project == k.project + "_" + x && k.service == x + "_" + l.service;
      assert k.project + "_" + (x + "_" + l.service) == (k.project + "_" + x) + "_" + l.service;
    }
  }

  /** So the services of projects with no underscore in their names, or of no project
      at all, never get in each other's way. */
  lemma PlainProjectsKeepApart(k: Key, l: Key)
    requires '_' !in k.project && '_' !in l.project && (k.project == "" <==> l.project == "")
    ensures LockName(k) == LockName(l) <==> k == l
  {
    hide LockName;
    LockNamesExactly(k, l);
    NotBeyond(k.project, l.project);
    NotBeyond(l.project, k.project);
  }

  lemma NotBeyond(p: string, q: string)
    requires '_' !in q
    ensures forall x: string :: q != p + "_" + x
  {
    forall x: string ensures q != p + "_" + x {
      assert (p + "_" + x)[|p|] == '_';
    }
  }

  /** Two that do, with names that are allowed. */
  lemma SharedLock()
    ensures Key("a", "b_c") != Key("a_b", "c") && LockName(Key("a", "b_c")) == LockName(Key("a_b", "c"))
    ensures Key("", "a_b") != Key("a", "b") && LockName(Key("", "a_b")) == LockName(Key("a", "b"))
  {
    assert LockName(Key("a", "b_c")) == "a_b_c.lock" == LockName(Key("a_b", "c"));
    assert LockName(Key("", "a_b")) == "a_b.lock" == LockName(Key("a", "b"));
  }
}
