/** The queue and lock operations of one thread, as its code calls them, with the
    steps of all other threads in between. */
module StateDirectory {
  import opened Rollout
  import opened Protocol

  /** The thread that takes an action. */
  function Actor(a: Action): Option<nat> {
    match a
    case Start(t, _) => Some(t)
    case Enqueue(_) => None
    case Poll(t, _) => Some(t)
    case Claim(t) => Some(t)
    case PassOver(t) => Some(t)
    case EndPoll(t) => Some(t)
    case Ask(t, _) => Some(t)
    case Refuse(t) => Some(t)
    case Lock(t) => Some(t)
    case GiveUp(t) => Some(t)
    case HandOver(t, _) => Some(t)
    case Complete(t, _) => Some(t)
    case FinishDeploy(t) => Some(t)
    case Refresh(t, _) => Some(t)
    case FinishRefresh(t) => Some(t)
    case Crash(_) => None
  }

  /** An action of someone else that leaves thread `t` alive. */
  predicate Foreign(s: System, a: Action, t: nat) {
    t in s.threads && Actor(a) != Some(t) && !(a.Crash? && a.process == s.threads[t].process)
  }

  lemma ForeignKeeps(s: System, a: Action, t: nat)
    requires Enabled(s, a) && Foreign(s, a, t)
    ensures t in After(s, a).threads && After(s, a).threads[t] == s.threads[t]
  {
    hide LockName;
  }

  /** Oldest first, none twice. */
  predicate InOrder(cs: seq<Command>) {
    forall i, j :: 0 <= i < j < |cs| ==> cs[i].created <= cs[j].created && cs[i] != cs[j]
  }

  function Insert(cs: seq<Command>, c: Command): (r: seq<Command>)
    ensures |r| == |cs| + 1 && forall x :: x in r <==> x == c || x in cs
  {
    if cs == [] || c.created < cs[0].created then [c] + cs
    else
      assert cs == [cs[0]] + cs[1..];
      [cs[0]] + Insert(cs[1..], c)
  }

  lemma {:induction false} InsertInOrder(cs: seq<Command>, c: Command)
    requires InOrder(cs) && c !in cs
    ensures InOrder(Insert(cs, c))
  {
    if cs != [] && cs[0].created <= c.created {
      InsertInOrder(cs[1..], c);
      var rest := Insert(cs[1..], c);
      forall j | 0 <= j < |rest| ensures cs[0].created <= rest[j].created && cs[0] != rest[j] {
        assert rest[j] in rest;
        if rest[j] in cs[1..] {
          var k :| 0 <= k < |cs| - 1 && cs[1..][k] == rest[j];
          assert cs[k + 1] == rest[j];
        }
      }
    }
  }

  lemma PollStep(s: System, t: nat, found: seq<Command>)
    requires t in s.threads && s.threads[t].doing.Resting? && forall c :: c in found ==> c in s.pending
    ensures var a := Action.Poll(t, found);
      Enabled(s, a) && t in After(s, a).threads && After(s, a).threads[t].doing == Polling(found)
  {
  }

  /** What goes on without thread `t` taking a command: what was done stays done, a
      command that left the queue does not come back, and `t` has the claims it had. */
  ghost predicate Onward(s: System, after: System, t: nat) {
    && s.enqueued <= after.enqueued && s.completed <= after.completed
    && (forall c: Command :: c.id in s.enqueued && c !in s.pending ==> c !in after.pending)
    && (forall c: Command :: (c, t) in after.claims <==> (c, t) in s.claims)
  }

  lemma ForeignOnward(s: System, a: Action, t: nat)
    requires Enabled(s, a) && Foreign(s, a, t)
    ensures Onward(s, After(s, a), t)
  {
    hide LockName;
  }

  lemma OwnOnward(s: System, a: Action, t: nat)
    requires Enabled(s, a) && (a.Refuse? || a.Lock? || a.GiveUp? || a.HandOver? || a.Poll? || a.EndPoll?)
    ensures Onward(s, After(s, a), t)
    ensures After(s, a).pending == s.pending && After(s, a).claims == s.claims
  {
    hide LockName;
  }

  lemma NothingHappens(s: System, t: nat)
    ensures Onward(s, s, t)
  {
  }

  lemma OnwardThen(s: System, between: System, after: System, t: nat)
    requires Onward(s, between, t) && Onward(between, after, t)
    ensures Onward(s, after, t)
  {
  }

  /** The same, but for what becomes of one command. */
  ghost predicate OnwardBut(s: System, after: System, t: nat, x: Command) {
    && s.enqueued <= after.enqueued && s.completed <= after.completed
    && (forall c: Command :: c.id in s.enqueued && c !in s.pending ==> c !in after.pending)
    && (forall c: Command :: c != x ==> ((c, t) in after.claims <==> (c, t) in s.claims))
  }

  lemma ButThen(s: System, between: System, after: System, t: nat, x: Command)
    requires OnwardBut(s, between, t, x) && OnwardBut(between, after, t, x)
    ensures OnwardBut(s, after, t, x)
  {
  }

  lemma ButKeeps(s: System, after: System, t: nat, x: Command, c: Command)
    requires OnwardBut(s, after, t, x) && c.id in s.enqueued
    ensures c.id in after.enqueued && (c !in s.pending ==> c !in after.pending)
    ensures c != x ==> ((c, t) in after.claims <==> (c, t) in s.claims)
  {
  }

  /** A command that waits is enqueued, and nobody has claimed it. */
  lemma WaitingIsUnclaimed(actions: seq<Action>, c: Command, t: nat)
    requires Run(actions).Some? && c in Run(actions).value.pending
    ensures c.id in Run(actions).value.enqueued && (c, t) !in Run(actions).value.claims
  {
    hide Run;
    RunsAreSound(actions);
    var s := Run(actions).value;
    assert Known(s, c);
    assert !(exists i :: 0 <= i < |s.claims| && s.claims[i].0 == c);
  }

  lemma OnwardIsBut(s: System, after: System, t: nat, x: Command)
    requires Onward(s, after, t)
    ensures OnwardBut(s, after, t, x)
  {
  }

  lemma OwnClaims(s: System, after: System, t: nat, c: Command)
    requires Onward(s, after, t) && c.id in s.enqueued && (c, t) !in s.claims
    ensures c.id in after.enqueued && (c, t) !in after.claims
  {
  }

  lemma InOrderApart(cs: seq<Command>, i: nat, k: nat)
    requires InOrder(cs) && i < |cs| && k < |cs| && i != k
    ensures cs[i] != cs[k]
  {
  }

  /** A command that this thread got is done, and it was answered if its release could
      begin. */
  ghost predicate Dealt(s: System, actions: seq<Action>, t: nat, c: Command, begins: bool) {
    (c, t) in s.claims ==> c in s.completed && (begins ==> Answered(actions, t, c.key, Some(c)))
  }

  lemma KeepsDealt(s: System, after: System, actions: seq<Action>, more: seq<Action>, t: nat, c: Command, begins: bool)
    requires Onward(s, after, t) && c.id in s.enqueued && actions <= more
    requires c !in s.pending && Dealt(s, actions, t, c, begins)
    ensures c !in after.pending && Dealt(after, more, t, c, begins)
  {
    hide Answered;
    if (c, t) in s.claims && begins {
      StaysAnswered(actions, more, t, c.key, Some(c));
    }
  }

  lemma StaysDealt(s: System, after: System, actions: seq<Action>, more: seq<Action>, t: nat, x: Command, c: Command,
                   begins: bool)
    requires OnwardBut(s, after, t, x) && c != x && actions <= more && Dealt(s, actions, t, c, begins)
    ensures Dealt(after, more, t, c, begins)
  {
    hide Answered;
    if (c, t) in s.claims && begins {
      StaysAnswered(actions, more, t, c.key, Some(c));
    }
  }

  /** A request for a release was answered: the lock went to a thread that deploys, or
      somebody had it. */
  ghost predicate AnsweredAt(actions: seq<Action>, k: nat, t: nat, key: Key, origin: Option<Command>)
    requires k < |actions|
  {
    Run(actions[..k]).Some? &&
    var s, a := Run(actions[..k]).value, actions[k];
    var doing := DoingOf(s, t);
    || (a.HandOver? && a.t == t && doing.Preparing? && doing.key == key && doing.origin == origin)
    || (a == Lock(t) && doing.Asked? && doing.key == key && doing.origin == origin && LockName(key) in s.locks)
  }

  ghost predicate Answered(actions: seq<Action>, t: nat, key: Key, origin: Option<Command>) {
    exists k :: 0 <= k < |actions| && AnsweredAt(actions, k, t, key, origin)
  }

  lemma StaysAnswered(actions: seq<Action>, more: seq<Action>, t: nat, key: Key, origin: Option<Command>)
    requires actions <= more && Answered(actions, t, key, origin)
    ensures Answered(more, t, key, origin)
  {
    hide Run;
    var k :| 0 <= k < |actions| && AnsweredAt(actions, k, t, key, origin);
    assert more[..k] == actions[..k];
    assert AnsweredAt(more, k, t, key, origin);
  }

  lemma JustAnswered(actions: seq<Action>, a: Action, t: nat, key: Key, origin: Option<Command>)
    requires AnsweredAt(actions + [a], |actions|, t, key, origin)
    ensures Answered(actions + [a], t, key, origin)
  {
  }

  class StateDir {
    var sys: System
    /** Every action so far, of all threads. */
    ghost var actions: seq<Action>

    /** How often a rename, a removal or the opening of a lock file failed, and which
        command files could not be read in the last poll. */
    ghost var faults: nat
    ghost var spoilt: set<Command>

    ghost predicate Valid()
      reads this
    {
      Run(actions) == Some(sys)
    }

    predicate At(t: nat, doing: Doing)
      reads this
    {
      t in sys.threads && sys.threads[t].doing == doing
    }

    method Do(a: Action)
      requires Valid() && Enabled(sys, a)
      modifies this`sys, this`actions
      ensures Valid() && sys == After(old(sys), a) && actions == old(actions) + [a]
    {
      hide Enabled, After;
      ghost var before := actions;
      sys := After(sys, a);
      actions := actions + [a];
      assert actions[..|actions| - 1] == before;
    }

    /** Whatever other threads and processes do meanwhile. */
    method Others(t: nat)
      requires Valid() && t in sys.threads
      modifies this`sys, this`actions
      ensures Valid() && t in sys.threads && sys.threads[t] == old(sys.threads[t])
      ensures Onward(old(sys), sys, t) && old(actions) <= actions
    {
      hide Enabled, After, Run, Onward;
      var steps: int := *;
      NothingHappens(sys, t);
      while steps > 0
        invariant Valid() && t in sys.threads && sys.threads[t] == old(sys.threads[t])
        invariant Onward(old(sys), sys, t) && old(actions) <= actions
      {
        steps := steps - 1;
        var a: Action := *;
        if Enabled(sys, a) && Foreign(sys, a, t) {
          ForeignKeeps(sys, a, t);
          ForeignOnward(sys, a, t);
          OnwardThen(old(sys), sys, After(sys, a), t);
          Do(a);
        }
      }
    }

    /** A rename, a removal or the opening of a lock file, which may fail. */
    method Attempt() returns (ok: bool)
      modifies this`faults
      ensures faults == old(faults) + if ok then 0 else 1
    {
      ok := *;
      faults := faults + if ok then 0 else 1;
    }

    method ReadCommand(c: Command) returns (ok: bool)
      modifies this`spoilt
      ensures spoilt == old(spoilt) + if ok then {} else {c}
    {
      ok := *;
      spoilt := spoilt + if ok then {} else {c};
    }

    /** The commands that wait to be run, oldest first: those of one project, or of
        all. A file that cannot be read spoils a project's list, and is left out
        of the list of all. */
    method PendingReleaseCommands(t: nat, project: string) returns (commands: seq<Command>)
      requires Valid() && At(t, Resting)
      modifies this`sys, this`actions, this`spoilt
      ensures Valid() && At(t, Polling(commands)) && actions == old(actions) + [Action.Poll(t, commands)]
      ensures Onward(old(sys), sys, t) && sys.pending == old(sys).pending && sys.claims == old(sys).claims
      ensures InOrder(commands) && forall c :: c in commands ==>
        c in old(sys).pending && (project == "" || c.key.project == project)
      ensures spoilt <= old(sys).pending
      ensures project == "" || spoilt == {} ==>
        forall c :: c in old(sys).pending && (project == "" || c.key.project == project) ==>
          c in commands || c in spoilt
      ensures project != "" && spoilt != {} ==> commands == []
    {
      hide Run, After;
      commands := [];
      spoilt := {};
      var files := set c | c in sys.pending && (project == "" || c.key.project == project);
      ghost var all := files;
      while files != {}
        invariant Valid() && sys == old(sys) && actions == old(actions) && InOrder(commands) && files <= all
        invariant forall c :: c in commands ==> c in all && c !in files
        invariant forall c :: c in all - files ==> c in commands || c in spoilt
        invariant spoilt <= all && (project != "" ==> spoilt == {})
      {
        var c :| c in files;
        files := files - {c};
        var readable := ReadCommand(c);
        if readable {
          InsertInOrder(commands, c);
          commands := Insert(commands, c);
        } else if project != "" {
          commands := [];
          break;
        }
      }
      PollStep(sys, t, commands);
      OwnOnward(sys, Action.Poll(t, commands), t);
      Do(Action.Poll(t, commands));
    }

    /** Claims the next command seen, unless another thread was quicker or the
        rename fails. */
    method ClaimReleaseCommand(t: nat, queue: seq<Command>) returns (ok: bool)
      requires Valid() && At(t, Polling(queue)) && queue != []
      modifies this`sys, this`actions, this`faults
      ensures Valid() && old(actions) <= actions && old(faults) <= faults
      ensures ok <==> queue[0] in old(sys).pending && faults == old(faults)
      ensures sys.enqueued == old(sys).enqueued && sys.completed == old(sys).completed
      ensures if ok then
                && sys.pending == old(sys).pending - {queue[0]} && queue[0] in sys.processing
                && sys.claims == old(sys).claims + [(queue[0], t)]
              else sys.pending == old(sys).pending && sys.claims == old(sys).claims
      ensures At(t, if ok then Asked(queue[0].key, Some(queue[0]), queue[1..]) else Polling(queue[1..]))
    {
      hide Run;
      var renames := Attempt();
      if !renames {
        Do(PassOver(t));
        return false;
      }
      ok := queue[0] in sys.pending;
      Do(Claim(t));
    }

    /** Removes the file of a command that is done; false when that fails, and then the
        file stays where it is. */
    method CompleteReleaseCommand(t: nat, cmd: Command, queue: seq<Command>) returns (ok: bool)
      requires Valid() && At(t, Completing(cmd, queue))
      modifies this`sys, this`actions, this`faults
      ensures Valid() && At(t, Polling(queue)) && old(actions) <= actions
      ensures old(faults) <= faults && (ok <==> faults == old(faults))
      ensures ok ==> sys.completed == old(sys).completed + {cmd} && cmd !in sys.processing
      ensures !ok ==> sys.completed == old(sys).completed && sys.processing == old(sys).processing
      ensures sys.pending == old(sys).pending && sys.claims == old(sys).claims && sys.enqueued == old(sys).enqueued
    {
      hide Run;
      ok := Attempt();
      Do(Action.Complete(t, ok));
    }

    /** Takes the lock of the service if nobody has it; never waits. `broken` when
        the lock file cannot be made or opened. */
    method AcquireDeployLock(t: nat, key: Key, origin: Option<Command>, queue: seq<Command>)
      returns (ok: bool, broken: bool)
      requires Valid() && At(t, Asked(key, origin, queue))
      modifies this`sys, this`actions, this`faults
      ensures Valid() && (ok <==> !broken && LockName(key) !in old(sys).locks)
      ensures old(faults) <= faults && (broken <==> faults > old(faults))
      ensures actions == old(actions) + [if broken then Refuse(t) else Action.Lock(t)]
      ensures Onward(old(sys), sys, t) && (!ok ==> sys.locks == old(sys).locks)
      ensures At(t, if ok then Preparing(key, origin, queue) else AfterRelease(origin, queue))
      ensures ok ==> LockName(key) in sys.locks && sys.locks[LockName(key)] == t
    {
      hide Run, LockName, Onward;
      var works := Attempt();
      broken := !works;
      if broken {
        OwnOnward(sys, Refuse(t), t);
        Do(Refuse(t));
        return false, broken;
      }
      ok := LockName(key) !in sys.locks;
      OwnOnward(sys, Action.Lock(t), t);
      Do(Action.Lock(t));
    }

    /** A thread that does not exist yet. */
    method NewThread() returns (worker: nat)
      ensures worker !in sys.threads
    {
      worker := 0;
      while worker in sys.threads
        decreases |set x | x in sys.threads && x >= worker|
      {
        assert (set x | x in sys.threads && x >= worker) == (set x | x in sys.threads && x >= worker + 1) + {worker};
        worker := worker + 1;
      }
    }

    /** Starts a release. `refused` says that the saved state forbids it, `prepared` that
        what is done before the deploy works out. The lock taken here is dropped on every
        early return, and otherwise goes to the thread that deploys. */
    method Release(t: nat, key: Key, origin: Option<Command>, queue: seq<Command>, refused: bool,
                   prepared: bool) returns (started: bool, ghost deployer: nat)
      requires Valid() && At(t, Asked(key, origin, queue))
      modifies this`sys, this`actions, this`faults
      ensures Valid() && At(t, AfterRelease(origin, queue))
      ensures Onward(old(sys), sys, t) && old(actions) <= actions && old(faults) <= faults
      ensures started ==> !refused && prepared
      ensures started ==>
        At(deployer, Deploying(key)) && LockName(key) in sys.locks && sys.locks[LockName(key)] == deployer
      ensures started || (faults == old(faults) && !refused && prepared) ==> Answered(actions, t, key, origin)
    {
      hide Run, LockName, After, Enabled, Onward;
      deployer := t;
      if refused {
        RefuseStep(sys, t);
        OwnOnward(sys, Refuse(t), t);
        Do(Refuse(t));
        return false, deployer;
      }
      Others(t);
      ghost var before, between := actions, sys;
      var ok, broken := AcquireDeployLock(t, key, origin, queue);
      OnwardThen(old(sys), between, sys, t);
      if !ok {
        if !broken {
          assert actions[..|before|] == before;
          JustAnswered(before, Action.Lock(t), t, key, origin);
        }
        return false, deployer;
      }
      var releaseOnReturn := true;
      between := sys;
      Others(t);
      OnwardThen(old(sys), between, sys, t);
      before, between := actions, sys;
      if prepared {
        releaseOnReturn := false;
        var worker := NewThread();
        HandOverStep(sys, t, worker);
        OwnOnward(sys, HandOver(t, worker), t);
        deployer := worker;
        Do(HandOver(t, worker));
        assert actions[..|before|] == before;
        JustAnswered(before, HandOver(t, worker), t, key, origin);
      }
      if releaseOnReturn {
        GiveUpStep(sys, t);
        OwnOnward(sys, GiveUp(t), t);
        Do(GiveUp(t));
      }
      OnwardThen(old(sys), between, sys, t);
      started := !releaseOnReturn;
    }

    /** Claims one command, runs it and takes its file away. */
    method RunCommand(t: nat, queue: seq<Command>, refused: bool, prepared: bool)
      requires Valid() && At(t, Polling(queue)) && queue != []
      requires queue[0].id in sys.enqueued && (queue[0], t) !in sys.claims
      modifies this`sys, this`actions, this`faults
      ensures Valid() && At(t, Polling(queue[1..])) && old(actions) <= actions && old(faults) <= faults
      ensures OnwardBut(old(sys), sys, t, queue[0])
      ensures faults == old(faults) ==>
        queue[0] !in sys.pending && Dealt(sys, actions, t, queue[0], !refused && prepared)
    {
      hide Run, LockName, After, Enabled, Answered;
      var c := queue[0];
      var ok := ClaimReleaseCommand(t, queue);
      if !ok {
        return;
      }
      ghost var between := sys;
      assert OnwardBut(old(sys), sys, t, c);
      var _, _ := Release(t, c.key, Some(c), queue[1..], refused, prepared);
      ButThen(old(sys), between, sys, t, c);
      between := sys;
      ghost var released := actions;
      Others(t);
      if Answered(released, t, c.key, Some(c)) {
        StaysAnswered(released, actions, t, c.key, Some(c));
      }
      ButThen(old(sys), between, sys, t, c);
      between := sys;
      ghost var asked := actions;
      var _ := CompleteReleaseCommand(t, c, queue[1..]);
      assert OnwardBut(between, sys, t, c);
      ButThen(old(sys), between, sys, t, c);
      if Answered(asked, t, c.key, Some(c)) {
        StaysAnswered(asked, actions, t, c.key, Some(c));
      }
    }

    /** Runs every command that waits, one after the other, oldest first. `refused` and
        `prepared` say of each what a release of it meets. Unless a rename, a removal or a
        lock file fails, every command seen is out of the queue in the end, and those that
        this thread got are done, and answered if their release could begin. */
    method ProcessReleaseCommands(t: nat, project: string, refused: Command -> bool, prepared: Command -> bool)
      returns (ghost seen: seq<Command>)
      requires Valid() && At(t, Resting)
      modifies this
      ensures Valid() && At(t, Resting)
      ensures old(actions) + [Action.Poll(t, seen)] <= actions
      ensures InOrder(seen) && forall c :: c in seen ==>
        c in old(sys).pending && (project == "" || c.key.project == project)
      ensures project == "" || spoilt == {} ==>
        forall c :: c in old(sys).pending && (project == "" || c.key.project == project) ==> c in seen || c in spoilt
      ensures old(faults) <= faults
      ensures faults == old(faults) ==> forall c :: c in seen ==>
        c !in sys.pending && Dealt(sys, actions, t, c, !refused(c) && prepared(c))
    {
      hide Run, LockName, After, Enabled, Onward, OnwardBut, Dealt;
      forall c | c in sys.pending ensures c.id in sys.enqueued && (c, t) !in sys.claims {
        WaitingIsUnclaimed(actions, c, t);
      }
      ghost var first := sys;
      var commands := PendingReleaseCommands(t, project);
      seen := commands;
      forall k | 0 <= k < |seen| ensures seen[k].id in sys.enqueued && (seen[k], t) !in sys.claims {
        assert seen[k] in first.pending;
        OnwardIsBut(first, sys, t, seen[k]);
        ButKeeps(first, sys, t, seen[k], seen[k]);
      }
      ghost var unread := spoilt;
      for i := 0 to |commands|
        invariant Valid() && At(t, Polling(commands[i..])) && old(faults) <= faults && spoilt == unread
        invariant old(actions) + [Action.Poll(t, seen)] <= actions
        invariant forall k :: 0 <= k < |seen| ==> seen[k].id in sys.enqueued
        invariant forall k :: i <= k < |seen| ==> (seen[k], t) !in sys.claims
        invariant faults == old(faults) ==> forall k :: 0 <= k < i ==>
          seen[k] !in sys.pending && Dealt(sys, actions, t, seen[k], !refused(seen[k]) && prepared(seen[k]))
      {
        ghost var start, sofar := sys, actions;
        var c := commands[i];
        assert commands[i..][0] == c && commands[i..][1..] == commands[i + 1..];
        Others(t);
        OnwardIsBut(start, sys, t, c);
        ghost var between := sys;
        OwnClaims(start, sys, t, c);
        RunCommand(t, commands[i..], refused(c), prepared(c));
        ButThen(start, between, sys, t, c);
        forall k | 0 <= k < |seen|
          ensures seen[k].id in sys.enqueued && (k > i ==> (seen[k], t) !in sys.claims)
          ensures faults == old(faults) && k <= i ==>
            seen[k] !in sys.pending && Dealt(sys, actions, t, seen[k], !refused(seen[k]) && prepared(seen[k]))
        {
          ButKeeps(start, sys, t, c, seen[k]);
          if k != i {
            assert seen[k] != c by { InOrderApart(seen, i, k); }
            if faults == old(faults) && k < i {
              StaysDealt(start, sys, sofar, actions, t, c, seen[k], !refused(seen[k]) && prepared(seen[k]));
            }
          }
        }
      }
      EndPollStep(sys, t);
      OwnOnward(sys, EndPoll(t), t);
      ghost var last, sofar := sys, actions;
      Do(EndPoll(t));
      forall c | faults == old(faults) && c in seen
        ensures c !in sys.pending && Dealt(sys, actions, t, c, !refused(c) && prepared(c))
      {
        KeepsDealt(last, sys, sofar, actions, t, c, !refused(c) && prepared(c));
      }
    }

    /** Rewrites a service's config, unless it is being released. */
    method RefreshServiceConfig(t: nat, key: Key) returns (refreshed: bool)
      requires Valid() && At(t, Resting)
      modifies this`sys, this`actions, this`faults
      ensures Valid() && At(t, Resting) && old(faults) <= faults
      ensures refreshed <==> LockName(key) !in old(sys).locks && faults == old(faults)
      ensures refreshed ==>
        old(actions) + [Action.Refresh(t, key)] <= actions && actions[|actions| - 1] == FinishRefresh(t)
    {
      hide Run, LockName;
      var works := Attempt();
      if !works {
        return false;
      }
      refreshed := LockName(key) !in sys.locks;
      Do(Action.Refresh(t, key));
      if !refreshed {
        return;
      }
      Others(t);
      Do(FinishRefresh(t));
    }
  }

  lemma RefuseStep(s: System, t: nat)
    requires t in s.threads && s.threads[t].doing.Asked?
    ensures Enabled(s, Refuse(t))
    ensures t in After(s, Refuse(t)).threads &&
      After(s, Refuse(t)).threads[t].doing == AfterRelease(s.threads[t].doing.origin, s.threads[t].doing.queue)
  {
  }

  lemma GiveUpStep(s: System, t: nat)
    requires t in s.threads && s.threads[t].doing.Preparing?
    ensures Enabled(s, GiveUp(t))
    ensures t in After(s, GiveUp(t)).threads &&
      After(s, GiveUp(t)).threads[t].doing == AfterRelease(s.threads[t].doing.origin, s.threads[t].doing.queue)
  {
    hide LockName;
  }

  lemma HandOverStep(s: System, t: nat, deployer: nat)
    requires t in s.threads && s.threads[t].doing.Preparing? && deployer !in s.threads
    ensures Enabled(s, HandOver(t, deployer))
    ensures var d := s.threads[t].doing; var after := After(s, HandOver(t, deployer));
      && t in after.threads && after.threads[t].doing == AfterRelease(d.origin, d.queue)
      && deployer in after.threads && after.threads[deployer].doing == Deploying(d.key)
      && LockName(d.key) in after.locks && after.locks[LockName(d.key)] == deployer
  {
    hide LockName;
  }

  lemma EndPollStep(s: System, t: nat)
    requires t in s.threads && s.threads[t].doing == Polling([])
    ensures Enabled(s, EndPoll(t)) && t in After(s, EndPoll(t)).threads &&
      After(s, EndPoll(t)).threads[t].doing == Resting
  {
  }
}
