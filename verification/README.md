# Verification of docker-release

A Dafny model of the parts of docker-release whose mistakes cost traffic: how a
release replaces containers behind a proxy, how it is undone, aborted and
recovered, how proxy config files and the running HAProxy are changed, how the
access log is read, and how several processes share one state directory.

The project stands alone. `dafny verify dfyconfig.toml` checks all of it.

## How it is put together

**A release.** `Rollout` has the vocabulary: containers, upstream configs, the
saved state, and the effects on them. `Machine` is the control flow of the three
strategies, the rollback and the abort: which effect comes at which point, and
where it leads when it takes and when it fails. `Platform` is Docker, the proxy
and the state file as a class whose methods fail when the environment says so;
it logs every effect, and counts what stands in the way without being one: a
cancellation, or something that cannot be read or had. `LinearStrategy`, `BlueGreenStrategy`, `CanaryStrategy`,
`SharedSteps`, `AbortRun`, `Recovery` and `Deploy` are the code itself, as
methods on the platform, and each is proved to produce runs of that control flow
and nothing else. `Promise` says what a run must never do and what holds at each
point; `Safety` proves it for every run. `Scripts`, `BlueGreenScript` and
`BackScripts` write each run out as a flat list of effects, with every config and
saved state in place, and prove that a run does just that; `Checks` says what the
check command has seen before users move. `Outcomes`, `Recovery`, `Restart` and
`Progression` hold what follows about ends, crashes, restarts and canary weights.
`Startup` is what a controller does first when it starts: it brings the proxy in
line with what runs and then recovers what it finds unfinished. `MainTraffic` and
`SideTraffic` say exactly when a stop meets a request in flight: of the main
traffic, and to previews, backups and draining servers. `Completion` shows that
runs get through.

A failed effect changes nothing. `Stop` and `Remove` may fail and the run goes
on. `Inspect` fails only for containers that are gone. A release starts with the
proxy serving exactly the old containers, all of them running, and no requests
elsewhere; old and new containers have ids and addresses of their own, and there
is at least one of each. `busy` is the set of addresses that may still hold
requests of the main traffic: those the proxy sends new requests to, and those it
sent to since the last wait. A wait that is not longer than nothing is none, and a
release drains if its drain time is positive.

**Proxy configs.** `ConfigFiles` is the file transaction and the readiness
manifest. `HAProxyBackend`, `HAProxyOptions`, `HAProxyRuntime`,
`HAProxyFastPath` and `HAProxyGenerate` are the backend file as text, the table
of the running proxy, and the Runtime API update against its definition, a
reload. `HAProxyServes` goes from a config to the containers that answer. `Frontend`,
`Routing` and `RouteOrder` are the rule list of the HAProxy frontend and the
routing it must implement, `SavedRoutes` says the same of the saved routes of the
services, and `LinkRules` what becomes of a token in a URL. `NginxRoutes` is the host conflict
check of nginx and Angie.

**The access log.** `LogTee` cuts the proxy's output into lines, `NginxLog` reads
them, `Requests` counts them.

**Several processes.** `Protocol` is the lock and queue protocol as a state
machine over all threads of all processes; `StateDirectory` is one thread's code,
with arbitrary steps of all others in between.

## What turned out not to hold

Each of these is a lemma about the code as it is, with the exact condition where
there is one.

- A linear release with more old than new containers leaves the surplus running
  and on no record (`Outcomes.LinearSurplus`).
- An abort can go back to a container that was stopped: when its removal failed
  and the next save failed too. The proxy and the saved state then still agree
  (`AbortRun.LinearAbortExactly`, `AbortRun.SetAbortExactly`,
  `AbortRun.StoppedTarget`).
- A crash after the old containers are removed and before the last save makes the
  recovery write a config with no server (`Recovery.RollbackToNothing`,
  `Recovery.CrashAfterRetiring`).
- A linear release is never rolled back after a crash. The next start sends
  traffic to all its running containers, checked or not, and keeps on record only
  those that were (`Startup.LinearResetExactly`, `Startup.LinearCrashAtOnce`).
- A rollback from a saved state knows no drain time and stops the new containers
  straight after the reload, whatever requests they hold
  (`Recovery.RecoveryMeetsRequests`, `Completion.RecoveryCutsOff`).
- A drain time of zero or less is accepted (internal/config/labels.go:108), and
  then replacements, promotions and aborts do the same
  (`MainTraffic.ReleaseMeetsMainTraffic`, `MainTraffic.AbortMeetsMainTraffic`).
- A rollback whose service cannot be listed, or whose labels cannot be read, takes it
  for one without a proxy: it removes the new containers and reports success while
  the proxy still lists them (`Recovery.RollbackRoutesExactly`,
  `Completion.BlindRecoveryHappens`).
- Some stops meet requests beside the main traffic even with a drain: an undo does
  not wait for the preview's, a promotion not for those the backups took
  (`SideTraffic.ReleaseMeetsSideTraffic`).
- A rollback from the saved state ignores a configured upstream name
  (`Recovery.RollbackName`).
- A switch at weight 100 keeps a share on the old containers, and a restart at
  that point drops them (`Progression.HundredIsNotAll`,
  `Restart.RestartAtHundred`).
- Before a weight is on record a restart already sends traffic to the new
  containers, whatever their health (`Restart.RestartBeforeTheSwitch`). The
  documentation says that a new container gets traffic only once it is healthy
  (docs/readme.md:240); the code is modelled.
- A release whose provider cannot be built ends before its strategy starts, and
  leaves its in-progress record, which names no container (`Deploy.Deploy`).
- A preview that could not be withdrawn stays in the proxy after the release is
  undone (`Outcomes.PreviewAfterUndo`).
- The manifest update is best effort, and losing it for a removed file makes the
  controller unhealthy (`ConfigFiles.ManifestStaysSound`).
- The log tee bounds its buffer at 64 KiB by forgetting an unfinished line that is
  longer at the end of a write, and then reads what follows of it as a line of its
  own (`LogTee.LongLineLosesItsBeginning`, `LogTee.BufferIsUnfinished`).
- A command whose process crashes after claiming it is never run
  (`Protocol.StrayExactly`, `Protocol.StrandingRunStrands`), and one whose file
  cannot be removed stays where it is (`Protocol.LeavingRunLeaves`).
- Different services can share a lock file (`Protocol.LockNamesExactly`,
  `Protocol.SharedLock`).
- The documentation gives 0-100 for the green weight (docs/readme.md:61); the
  code accepts 1-100 (internal/config/labels.go:242), which is what is modelled.

## Model

| member | source | states |
|---|---|---|
| `SharedSteps.WaitAllHealthy` | `internal/strategy/shared.go:15-23` | The run moves past the health checks only after every new container passed; the first failure ends it there. |
| `SharedSteps.RemoveContainers` | `internal/strategy/shared.go:27-36` | Stops and then removes every listed container in order and goes on past failures, whatever they are. |
| `SharedSteps.PromoteAndDrain` | `internal/strategy/shared.go:102-142` | All or nothing up to the last config: old containers as backup, drain, new ones alone, removal, in that order; any failure leaves the run at the step that failed. |
| `SharedSteps.RollbackWithFailure` | `internal/strategy/shared.go:47-87` | Goes back to the old containers, drains, removes the new ones, and only then saves the idle state; a failure ends it at that step. |
| `SharedSteps.PromotionUpstream` | `internal/strategy/shared.go:103-114` | The promotion config lists the new containers for traffic and the old ones as backup only. |
| `SharedSteps.SplitWeightUpstream` | `internal/strategy/bluegreen.go:258-279` | The switch config gives each new container the weight and each old one the rest of 100, in groups. |
| `LinearStrategy.BuildUpstream` | `internal/strategy/linear.go:140-157` | The config of a replacement: the new containers so far, the displaced one draining, the old ones still to come. |
| `LinearStrategy.BuildFinalUpstream` | `internal/strategy/linear.go:159-167` | The final config lists exactly the new containers. |
| `LinearStrategy.ReplaceOne` | `internal/strategy/linear.go:46-94` | One replacement goes through health check, config, drain, stop, removal and record in that order, and ends at the record or at the effect that failed. |
| `LinearStrategy.Execute` | `internal/strategy/linear.go:27-134` | Whatever fails or is cancelled, a linear release is a run of the control flow; it succeeds exactly when that run reaches its end, and is otherwise cut short inside it, by a failed effect or a cancellation. |
| `BlueGreenStrategy.NewPreviewToken` | `internal/strategy/bluegreen.go:196-205` | A fixed token is used as it is; `auto` gives a token that is not empty. |
| `BlueGreenStrategy.PublishPreview` | `internal/strategy/bluegreen.go:168-192` | The preview goes live with the old containers serving everyone, and a token is saved before the proxy honours it. |
| `BlueGreenStrategy.RunChecks` | `internal/strategy/check.go:50-75` | Checks run one after the other, the first failure wins and is the reason of the undo; a missing runner is an error, and only a cancellation is another. What a passed round means for every container is `Checks.ChecksPrecedeTraffic`. |
| `BlueGreenStrategy.WithdrawPreview` | `internal/strategy/bluegreen.go:209-220` | A preview is withdrawn before the undo goes on, and a failure to do so does not stop the undo. |
| `BlueGreenStrategy.UndoBeforeSwitch` | `internal/strategy/bluegreen.go:224-237` | An undo removes the new containers and saves why; it reports `undone` exactly when that state was saved. |
| `BlueGreenStrategy.SettleAfterWindow` | `internal/strategy/bluegreen.go:134-148` | The old containers go only if the errors of the new ones stayed within the limit and the log did not break off, or the window was over first; users go back only if the log broke off or more errors than allowed were delivered. Anything else is a failed effect or a cancellation. |
| `BlueGreenStrategy.SettleAfterSoak` | `internal/strategy/bluegreen.go:152-162` | After the soak the release is promoted; cancellation during it ends the run there. |
| `BlueGreenStrategy.Switch` | `internal/strategy/bluegreen.go:86-110` | Traffic moves before the state is saved: all of it with a watch window, the configured share otherwise, and the saved weight says which. |
| `BlueGreenStrategy.Prepare` | `internal/strategy/bluegreen.go:49-70` | Between health checks and switch a run either reaches the switch, is undone with the old containers serving, or ends at a failed effect. |
| `BlueGreenStrategy.Execute` | `internal/strategy/bluegreen.go:30-130` | Whatever fails or is cancelled, a blue-green release is a run of the control flow: success is its end, `undone` is an end at which the old containers serve, and anything else is cut short inside it, for a failed effect, a cancellation or a missing checker. With a window it succeeds only if that ended well. |
| `CanaryStrategy.Execute` | `internal/strategy/canary.go:27-104` | Whatever fails or is cancelled, a canary release is a run of the control flow; it succeeds exactly when that run reaches its end, and is otherwise cut short inside it, by a failed effect or a cancellation. |
| `Scripts.LinearFollowsScript` | `internal/strategy/linear.go:27-167` | Whatever fails, the effects of a linear run are a prefix of one written-out list, configs, waits and saved states spelled out, and the whole of it exactly when the run completes. |
| `Scripts.CanaryFollowsScript` | `internal/strategy/canary.go:27-132` | The same for a canary run. |
| `BlueGreenScript.BlueGreenFollowsScript` | `internal/strategy/bluegreen.go:30-253` | A blue-green run that completes has done exactly the effects of one written-out list, with every server, weight, group, affinity, wait and saved state in place; one that is undone exactly those of one of two others: undone early it never moved users, undone late it moved them there and back. |
| `Checks.ChecksPrecedeTraffic` | `internal/strategy/bluegreen.go:57-95` | In every run with a check command, before any config that sends users to a new container the check passed on every new container, with the token of the preview the proxy then had. Said of the effects alone. |
| `Checks.ChecksMeetThePreview` | `internal/strategy/bluegreen.go:164-192` | A check of a release with a preview runs while the proxy has exactly the new containers on the preview, in order and with the token the check is given, and the old ones serve everyone else; that token is the fixed one, or a fresh one for `auto`. |
| `Checks.UndoneForAReason` | `internal/strategy/check.go:50-75` | A release is undone only for a check that failed or a window that did not end clean, and with the reason this gave. |
| `Rollout.LiveOfStep` | `internal/strategy/linear.go:140-157` | At replacement `i` exactly the first `i + 1` new containers and the old ones after `i` take traffic. |
| `Rollout.LiveOfSplit` | `internal/strategy/bluegreen.go:258-279` | A split config sends traffic to all old and all new containers, at every weight. |
| `Rollout.LiveOfBackup` | `internal/strategy/shared.go:103-114` | The promotion config sends traffic to the new containers only. |
| `Safety.KeepsLinear` | `internal/strategy/linear.go:45-130` | Every effect of a linear release keeps the promise (stop and remove only what takes no traffic and, after a drain, holds no request; serve only trusted containers; save only what the proxy serves) and the invariant of its point, for any lengths of the waits. |
| `Safety.KeepsBlueGreen` | `internal/strategy/bluegreen.go:30-162` | The same for the preview, check, undo, switch and window effects of a blue-green release. |
| `Safety.KeepsOther` | `internal/strategy/canary.go:50-100` | The same for the weight steps of a canary, the promotion and the last save. |
| `Safety.KeepsSweep` | `internal/strategy/shared.go:27-36` | Stopping and removing containers is safe at each of the four places that do it, however many of those effects fail. |
| `Safety.KeepsBack` | `internal/controller/deploy.go:141-200` | The same for every effect of a rollback and of an abort. |
| `Safety.RunIsSafe` | `internal/controller/deploy.go:121-200` | Safety over whole runs: in every run of every strategy, of a rollback and of an abort, with any effect failing and cancellation anywhere, no container is stopped or removed while it takes main traffic or, if the release drains, may hold a request of it; every accepted config serves only running containers that are old or passed their health check, and at least one; and every saved state agrees with the proxy. (What an abort keeps of this when a target was stopped: `AbortRun.AbortIsSafe`. What is left without a drain: `MainTraffic`.) |
| `Safety.TrafficIsServed` | `internal/strategy/linear.go:27-134` | At every moment of such a run, crash points included, some server takes traffic and none that does was stopped or removed. |
| `MainTraffic.ReleaseMeetsMainTraffic` | `internal/strategy/linear.go:66-83` | Requests of the main traffic in flight, in every run of a release: a stop or removal meets one exactly if the drain time is not positive, except in the undo of a preview and after an error window. |
| `MainTraffic.AbortMeetsMainTraffic` | `internal/controller/deploy.go:166-192` | In every run of an abort: exactly if the drain time is not positive and a request could be at the container when it began. |
| `MainTraffic.RollbackMeetsMainTraffic` | `internal/strategy/shared.go:60-72` | In every run of a rollback from a saved state: the same. |
| `MainTraffic.MainStep` | `internal/strategy/shared.go:102-142` | What each effect does to the set of addresses with such requests, at every point of the control flow. |
| `SideTraffic.ReleaseMeetsSideTraffic` | `internal/strategy/bluegreen.go:224-237` | Requests beside the main traffic, in every run of a release: a stop or removal meets a container that is listed as preview, backup or draining, or was since the last wait, exactly in a linear replacement, in the undo of a preview, after a promotion with backups, and, without a drain, in the undo of a previewed release after the switch. |
| `SideTraffic.WayBackMeetsSideTraffic` | `internal/strategy/shared.go:60-72` | In every run of an abort or of a rollback from a saved state: exactly if the drain time is not positive and the container was so listed when it began, or since the last wait before. |
| `SideTraffic.SideStep` | `internal/strategy/shared.go:102-142` | What each effect does to the set of such addresses, at every point of the control flow. |
| `Safety.WeightAgrees` | `internal/controller/configsync.go:246-312` | A state saved at weight 1 to 99 makes a restart write the very config the proxy has; one saved after a watched switch gives the same servers with equal shares. |
| `Safety.NamingAgrees` | `internal/strategy/linear.go:115-130` | A saved idle state that names the routed containers lists exactly the live servers, no new set and no token. |
| `Restart.AddWeightedServers` | `internal/controller/configsync.go:293-312` | Appends one weighted server for each listed id that is known, in saved order, and skips the others. |
| `Restart.DeploymentStateUpstream` | `internal/controller/configsync.go:246-291` | What a restart writes for an unfinished release, or nothing, for every saved state and every set of containers found. |
| `Restart.RestartIsSplit` | `internal/controller/configsync.go:280-290` | With 1 to 99 on record and all containers where they were, the restart's config is the split config of that weight: servers, order, weights, groups, affinity and resolved name. |
| `Restart.RestartAtHundred` | `internal/controller/configsync.go:280-283` | With 100 on record the restart lists the new containers alone. That is what a watched switch serves, and never what a split at 100 serves. |
| `Restart.RestartBeforeTheSwitch` | `internal/controller/configsync.go:252-262` | With no weight on record the restart writes the very split the settings start with: the first canary weight for a canary, the green weight for blue-green, and at 100 the new containers alone. So new containers get traffic the release had not yet switched to them. |
| `Restart.NothingToRestart` | `internal/controller/configsync.go:246-291` | Exactly when a restart has no config of its own to write, for every saved state: among others whenever a linear release is open, which has no weight. |
| `AbortRun.IndexContainers` | `internal/controller/deploy.go:203-209` | Old and new containers by id, the later one winning. |
| `AbortRun.AbortTargets` | `internal/controller/deploy.go:202-234` | The containers on record (the old ones when the record lists none) that are known and still exist, in order; an unreadable record is an error. |
| `AbortRun.DiscardOthers` | `internal/controller/deploy.go:175-192` | Stops and removes exactly the new containers that are not targets, in order, past any failure. |
| `AbortRun.AbortDeployment` | `internal/controller/deploy.go:141-200` | An abort with no target left fails and changes nothing; otherwise it is a run of the control flow for its targets, succeeds exactly at its end, and fails only if the state cannot be read or an effect fails. |
| `AbortRun.LinearTargets` | `internal/strategy/linear.go:87-93` | Wherever a linear release stops with `k` replacements on record, the targets are the first `k` new containers and the old ones from `k` on, less at most the old one at `k`, if it was removed. |
| `AbortRun.SetTargets` | `internal/controller/deploy.go:211-233` | Wherever a blue-green or canary release stops, the targets are the old containers that still exist. |
| `AbortRun.LinearAbortExactly` | `internal/controller/deploy.go:216-231` | When the targets of a linear release's abort all run, exactly: the old container next in line must not be stopped yet unremoved, and if it is gone some other target must be left. |
| `AbortRun.SetAbortExactly` | `internal/controller/deploy.go:216-231` | The same for a blue-green or canary release: an old container is left and none that is left was stopped. |
| `AbortRun.SetAbortBeforeRetiring` | `internal/controller/deploy.go:141-148` | Before old containers are removed an abort is always safe and goes back to all of them. |
| `AbortRun.AbortAtOnce` | `internal/controller/deploy.go:216-219` | If not even the first state could be saved, an abort goes back to all old containers. |
| `AbortRun.AbortIsSafe` | `internal/controller/deploy.go:156-199` | Every abort with a target, each of them old or checked, whether it runs or not: it stops or removes only new containers that are not targets, and none that takes main traffic or, if the release drains, may hold a request of it; it gives traffic to its targets alone; what it saves agrees with the proxy. If the targets run, the whole promise of a run holds. |
| `AbortRun.AbortEndsAtTargets` | `internal/controller/deploy.go:148-199` | When an abort succeeds the proxy lists exactly its targets, in order, no request is anywhere else if the release drains, and the idle state names them, for any targets whatever. |
| `BackScripts.AbortFollowsScript` | `internal/controller/deploy.go:150-200` | Whatever fails, the effects of an abort are a prefix of one written-out list: the config of the targets, the drain, stop and removal of each new container that is no target, and the idle record; all of it exactly when the abort completes. |
| `Completion.AbortsComplete` | `internal/controller/deploy.go:141-200` | Every abort can succeed. |
| `AbortRun.StoppedTarget` | `internal/strategy/linear.go:78-93` | The run that shows the limit: stop works, removal and the next save fail, and the abort goes back to the stopped container. |
| `Outcomes.CompletedRunRemoves` | `internal/strategy/shared.go:27-36` | When every effect takes, all containers whose removal lies behind the current point are gone, at every point of every run. |
| `Outcomes.LinearCapacity` | `internal/strategy/linear.go:45-94` | With no more old than new containers, from the config of a replacement to its record exactly as many containers take traffic as before the release, every new one passed its health check, and the record names the same ones in the same order. |
| `Outcomes.LinearSurplus` | `internal/strategy/linear.go:45` | A completed linear release leaves exactly the old containers beyond the number of new ones running, and neither the last replacement's record nor the final one lists them. |
| `Completion.ReleasesComplete` | `internal/strategy/strategy.go:84-93` | Every release can complete: there is a run without faults to its last save, and to its end. |
| `Completion.SurplusHappens` | `internal/strategy/linear.go:45` | Such a run of a linear release with more old than new containers, with a surplus one running and on no record. |
| `Outcomes.PreviewAfterUndo` | `internal/strategy/bluegreen.go:209-237` | An undone release leaves its preview in the proxy exactly when the withdrawal failed. |
| `Outcomes.CrashIsRecoverable` | `internal/strategy/bluegreen.go:33-47` | A blue-green or canary release that crashes after its first save, before an old container is touched and before it is closed, leaves both sets on record and all old containers running. |
| `Recovery.ResolveContainers` | `internal/rollback/rollback.go:77-94` | The listed containers that have an address, in order; the others are skipped. |
| `Recovery.AnyContainerRunning` | `internal/controller/recovery.go:71-82` | True exactly when one of the listed containers exists and runs. |
| `Recovery.ResolveServiceConfig` | `internal/controller/controller.go:218-235` | The provider in the first labels that can be read, or none when containers cannot be listed or no labels can be read. |
| `Recovery.ProxiedExactly` | `internal/controller/controller.go:218-235` | A service behind a proxy is taken for one without exactly then. |
| `Recovery.Rollback` | `internal/rollback/rollback.go:35-75` | Refuses a provider that cannot be built, an idle release and an unknown strategy with nothing changed; otherwise marks the state and runs the rollback of what the state lists and still resolves, with whatever provider was found, and gets to its end unless the state cannot be read or an effect fails. |
| `Recovery.RecoverService` | `internal/controller/recovery.go:47-69` | With no new container running the state is closed in one save; otherwise the release is rolled back, or nothing changes at all when the provider cannot be built or the saved strategy is unknown. Either way it gets to its end unless the state cannot be read or an effect fails. |
| `BackScripts.RollbackFollowsScript` | `internal/strategy/shared.go:47-87` | The same for a rollback from the saved state: the record is marked first, then the old containers alone, the drain, the new ones removed, and the idle record. |
| `Recovery.RecoveryRestores` | `internal/rollback/rollback.go:50-75` | Such a rollback, if its provider has the proxy, stops no container that takes traffic and serves only old ones, whatever fails. At its end the proxy lists exactly the old containers, all running, the state is idle and names them; and if every effect took, every new container that ran before is gone. |
| `Recovery.RecoveryMeetsRequests` | `internal/rollback/rollback.go:67-72` | What it costs: it drains for no time, so a stop or removal meets a request exactly if one could be at that new container when the rollback began, of the main traffic or beside it. |
| `Completion.RecoveryCutsOff` | `internal/strategy/shared.go:60-72` | A run that shows it: a canary crashes with a weight on record, the start brings the split back, and the recovery stops a new container that takes requests up to the reload just before. |
| `Recovery.RollbackRoutesExactly` | `internal/controller/controller.go:202-235` | A rollback that is through leaves the proxy at the old containers exactly if its provider has the proxy or the proxy was there already; either way it removes the new ones and saves that the old ones serve. |
| `Completion.BlindRecoveryHappens` | `internal/controller/controller.go:218-222` | A run that shows it: with containers that cannot be listed every effect takes, and the proxy keeps what it had. |
| `Recovery.CrashRecovery` | `internal/controller/recovery.go:47-69` | For a crash anywhere between the first save and the first old container touched, whatever the downtime did to the new containers and the proxy: a recovery without faults, by a provider that has the proxy, ends with the state idle and naming the old containers, which all run; and if a new container still ran, with the proxy listing exactly the old ones and every new one gone. |
| `Recovery.RecoveryDoesNotFail` | `internal/strategy/shared.go:47-87` | Without faults a rollback is never at a failed point. |
| `Completion.RollbacksComplete` | `internal/strategy/shared.go:47-87` | Every rollback can get to its end. |
| `Recovery.RollbackToNothing` | `internal/rollback/rollback.go:57-74` | A rollback empties the proxy if and only if none of the containers on record has an address. |
| `Recovery.CrashAfterRetiring` | `internal/strategy/bluegreen.go:120-126` | That is where a crash between the last removal and the last save ends: new containers serving everyone, and a rollback to no server at all. |
| `Completion.EmptyingHappens` | `internal/strategy/bluegreen.go:120-126` | There is such a run of every blue-green and canary release. |
| `Recovery.RollbackName` | `internal/rollback/rollback.go:67-72` | A rollback writes the release's upstream exactly when its name is the service's name. |
| `Recovery.LinearIsClosed` | `internal/strategy/linear.go:36-38` | A linear release is never rolled back on recovery: its state lists no new container. |
| `Startup.ListRunning` | `internal/controller/configsync.go:193-219` | One server for each listed container with an address, in listed order. |
| `Startup.GenerateServiceConfig` | `internal/controller/configsync.go:173-226` | Writes the config that the saved state tells, or all running containers when it tells none, and reloads. |
| `Startup.StartUp` | `internal/controller/controller.go:118-121` | A start brings the proxy in line first and recovers only if that worked; it gets to the end of both unless the state cannot be read, an effect fails, the provider cannot be built or the strategy is unknown. |
| `Startup.SyncServes` | `internal/controller/configsync.go:173-291` | With no new container on record running, the config of a start sends traffic to exactly the running containers, or to those of them on record when the saved state tells the weights. |
| `Startup.SomeInventory` | `internal/docker/client.go:49-57` | Whatever runs can be listed. |
| `Startup.ResetAgreesExactly` | `internal/controller/recovery.go:52-61` | When the idle state of a closed release agrees with the proxy after such a start, exactly, for any saved state and anything that runs. |
| `Startup.SetResetExactly` | `internal/controller/recovery.go:52-61` | For a blue-green or canary release: exactly if every old container runs. |
| `Startup.StartRestores` | `internal/controller/controller.go:118-121` | From a crash to the end of the next start without faults, whether it rolls back or closes: the state is idle and names exactly the old containers, which all run and are what the proxy serves. |
| `Startup.LinearResetAgrees` | `internal/controller/recovery.go:52-61` | For a linear release: exactly if the containers on record are the ones that run. |
| `Startup.LinearResetExactly` | `internal/strategy/linear.go:87-115` | So after a crash of a linear release, at any point and with any faults before: exactly if every replacement is on record, there is no new container beyond the replacements, and no old one runs. |
| `Startup.LinearResetUnfaulted` | `internal/strategy/linear.go:87-115` | With no fault before the crash: exactly if every replacement is on record and there are as many old containers as new ones. |
| `Startup.LinearCrashAtOnce` | `internal/strategy/linear.go:31-45` | A run that shows the disagreement: after a crash right behind the first save, the start sends traffic to every new container, none of which passed a health check, and closes the release with the old ones on record. |
| `Progression.WeightsAre` | `internal/strategy/canary.go:51-86` | The weights of a canary are the first one plus whole steps, all from the first one to 99. |
| `Progression.WeightsCount` | `internal/strategy/canary.go:53-86` | There are as many as the distance to 100 divided by the step, rounded up. |
| `Progression.ShiftsInOrder` | `internal/strategy/canary.go:53-86` | In every canary run the accepted split configs have exactly these weights in this order; none is skipped or repeated, and none is left when it promotes. |
| `Progression.ShareGrows` | `internal/strategy/canary.go:110-132` | Each step sends the new containers strictly more of the traffic, for any numbers of old and new containers. |
| `Progression.EqualCountsShare` | `internal/strategy/canary.go:119-132` | With equal numbers the share is the weight in percent. |
| `Progression.HundredIsNotAll` | `internal/strategy/bluegreen.go:258-270` | A switch at weight 100 still leaves the old containers a share: their weight 0 is no directive, which counts as 1. |
| `Deploy.RunStrategy` | `internal/strategy/strategy.go:84-93` | The configured strategy runs, and its outcome says where its run ended and that it had a reason to end early. |
| `Deploy.DiscardNew` | `internal/controller/deploy.go:329-351` | Unreachable new containers are stopped and removed one after the other, whatever fails, and the old ones saved as serving; nothing about the proxy or the old containers changes. |
| `Deploy.StoppedShort` | `internal/controller/deploy.go:121-135` | Wherever a strategy stops short, traffic is still served, and every target of the abort is still there and is old or passed its health check. |
| `Deploy.Deploy` | `internal/controller/deploy.go:20-139` | A whole release with its abort. A provider that cannot be built or containers that cannot be reached end it before the strategy, and nothing else does; a strategy that does not get to an end stopped for a reason, and is followed by an abort that began where it stopped and either got to its own end or had nothing to go back to, could not read the record, or met a failed effect. Whichever way it ends the proxy serves containers that are old or passed their health check, and they run, except after an abort that found a stopped container on record; every end says what is saved. |
| `Deploy.ReadyIs` | `internal/strategy/strategy.go:17-34` | What a release needs of the world it finds, exactly: the proxy serves the old containers, old and new containers run, and no request is elsewhere if the release drains. |
| `Deploy.SomeServiceIsReady` | `internal/strategy/strategy.go:17-34` | Such a world exists for every release. |
| `Deploy.ReadyAgain` | `internal/controller/deploy.go:20-139` | Every clean end of a release, successful or not, is what the next release of the service needs. |
| `Deploy.CleanWhenDrained` | `internal/controller/deploy.go:20-139` | If the release drains, the requests at its end are where the next release needs them, unless a linear one had too many old containers. |
| `Deploy.Releases` | `internal/controller/deploy.go:20-139` | The life of a service: release after release, each begun beside the containers its forerunner left serving, up to the first that cannot go on from what the one before it left. Each of them finds the service ready, and keeps what a release promises. |
| `Requests.MatchesStatus` | `internal/config/check.go:48-55` | True exactly when one of the matches covers the status. |
| `Requests.Counts` | `internal/config/check.go:59-72` | True exactly when the status matches and, if paths are given, the path starts with one of them. |
| `Requests.ClassIsItsHundred` | `internal/config/check.go:42-50` | A class covers its hundred statuses and no other, negative numbers included. |
| `Requests.OrderDoesNotMatter` | `internal/strategy/check.go:115-126` | Deliveries of the same requests count the same in any order. |
| `Requests.LimitPassedOnce` | `internal/strategy/check.go:119-125` | A stream with too many errors passes the limit at exactly one request. |
| `Requests.OneRequestCounts` | `internal/strategy/check.go:115-126` | What one request among others adds to the count, spelled out: one if a new container answered it with a status and under a path that the rules name, and nothing otherwise, so requests of old containers never count. |
| `Requests.ErrorWatch.constructor` | `internal/strategy/check.go:107-113` | A new watch counts the addresses of the new containers and has seen nothing. |
| `Requests.ErrorWatch.Observe` | `internal/strategy/check.go:115-126` | The counter is the number of counted requests delivered; the signal goes off in the call that passes the limit and in no other. |
| `Requests.ErrorWatch.Wait` | `internal/strategy/check.go:138-151` | Too many errors only if the limit was passed, blind only if the log was lost, and a clean end only if the window was over or neither had come about. |
| `ConfigFiles.Disk.WriteFile` | `internal/provider/config_files.go:93-118` | A file is replaced or removed whole, or not at all. |
| `ConfigFiles.Disk.ReadPrevious` | `internal/provider/config_files.go:122-135` | Remembers the old content of every file the changes are about; refuses to overwrite a file that is not generated and passes over its removal, and otherwise fails only for a file that cannot be read. |
| `ConfigFiles.Disk.Restore` | `internal/provider/config_files.go:154-161` | Puts back every file unless a write fails, going on past failures, and touches no other. |
| `ConfigFiles.Disk.Apply` | `internal/provider/config_files.go:121-152` | All or nothing for every order of files and every failing read, write or reload: success lays exactly the changes over the old disk, loaded by the proxy, and notes each file whose manifest update was not lost; failure has a cause, leaves proxy and manifest as they were, and the disk too unless the way back meets a second failure. |
| `ConfigFiles.Disk.UpdateManifest` | `internal/health/health.go:27-66` | One file enters or leaves the manifest, or the update is silently lost. |
| `ConfigFiles.StaleConfigChanges` | `internal/provider/config_files.go:164-179` | Picks for removal exactly the generated files, of the listed kinds, of services that are inactive and removable. |
| `ConfigFiles.CleaningRemovesStaleOnly` | `internal/provider/config_files.go:164-212` | Applying them is never blocked and takes away exactly those files. |
| `ConfigFiles.ManifestStaysSound` | `internal/health/health.go:84-108` | After a transaction the manifest lists only existing files, if and only if no update was lost for a listed file that went away. |
| `ConfigFiles.Disk.IsReady` | `internal/health/health.go:84-108` | True exactly if the first scan is over, the manifest can be read and every file it names exists. |
| `ConfigFiles.StaysReady` | `internal/health/health.go:84-108` | Over every sequence of such transactions, undone ones and clean-ups included, readiness is never lost. |
| `HAProxyBackend.RenderServer` | `internal/provider/haproxy_backend.go:22-40` | One server line, word for word. |
| `HAProxyBackend.RenderBackend` | `internal/provider/haproxy_backend.go:8-42` | One backend section, line for line. |
| `HAProxyBackend.RenderFile` | `internal/provider/haproxy_routes.go:89-106` | The file is the header, the main section and the preview sections behind empty lines. |
| `HAProxyBackend.SplitBackends` | `internal/provider/haproxy_runtime.go:43-60` | Cuts any text in front of each `backend` line. |
| `HAProxyBackend.CutIsWhole` | `internal/provider/haproxy_runtime.go:42-60` | For every text the parts together are the text, and each has at most one backend, at its beginning. |
| `HAProxyBackend.BackendServers` | `internal/provider/haproxy_runtime.go:98-125` | The backend name and the servers of any text; nothing where a server line is too short to read. |
| `HAProxyBackend.ServerRoundTrip` | `internal/provider/haproxy_runtime.go:109-122` | A written server line is read back with its name, address, weight (1 if none) and state. |
| `HAProxyBackend.SectionRoundTrip` | `internal/provider/haproxy_runtime.go:98-125` | A written section is read back as its backend and exactly its servers, in order. |
| `HAProxyBackend.SectionSays` | `internal/provider/haproxy_backend.go:8-42` | Every line of a section but its servers, word by word: title, options, the way its affinity keeps clients, and the path rewrite at its end. |
| `HAProxyBackend.FileRoundTrip` | `internal/provider/haproxy_runtime.go:31-60` | A written file is cut into its header and one part for each of its sections, and nothing is lost. |
| `HAProxyOptions.BackendOptions` | `internal/provider/haproxy_runtime.go:20-28` | Everything of a text but its server lines. |
| `HAProxyOptions.SameOptions` | `internal/provider/haproxy_routes.go:148-155` | Two written files with equal options have the same backends in the same order and agree on which use cookies. |
| `HAProxyRuntime.Proxy.ServerStates` | `internal/provider/haproxy_runtime.go:162-188` | The table of a backend, or an error for one the proxy lacks. |
| `HAProxyRuntime.Proxy.ApplyServer` | `internal/provider/haproxy_runtime.go:127-149` | Only this server can change, and never its backup mark or cookie; a server that is added gets those of its line. Unless a command fails it ends as listed, if it has a port and was known rightly. |
| `HAProxyRuntime.Proxy.RestOthers` | `internal/provider/haproxy_runtime.go:78-82` | All servers left over are put to rest and no other is touched, or a command failed. |
| `HAProxyRuntime.Proxy.CheckApplied` | `internal/provider/haproxy_runtime.go:83-94` | Succeeds exactly if the table can be read and every listed server has the listed address, weight and state. |
| `HAProxyRuntime.Proxy.UpdateServers` | `internal/provider/haproxy_runtime.go:62-96` | Success brings the backend to its section, all other servers resting; success or not, no server vanishes or changes its fixed attributes and no other backend changes. With servers that have ports and names of their own it fails only for a failed command. |
| `HAProxyFastPath.StaysRuled` | `internal/provider/haproxy_backend.go:22-39` | After any update, finished or not, a server's name still fixes its backup mark and its cookie. |
| `HAProxyFastPath.UpdateIsReload` | `internal/provider/haproxy_runtime.go:62-96` | A finished update leaves ready exactly the servers a reload of the file would, with equal address, weight, backup mark and cookie, from any table in which names fix attributes. |
| `HAProxyFastPath.DrainingBackup` | `internal/provider/haproxy_backend.go:31-35` | Why no server may be both draining and backup: its line lacks the backup mark its name stands for. |
| `HAProxyFastPath.UpdateBackends` | `internal/provider/haproxy_runtime.go:31-40` | The same for all backends of a file; a failure leaves names as reliable as before, and has a failed command behind it. |
| `HAProxyFastPath.Reload` | `internal/provider/haproxy_reload.go:15-42` | A reload gives every backend of the file its servers and every other backend what its own file loads as, or changes nothing. |
| `HAProxyFastPath.ApplyBundled` | `internal/provider/haproxy_routes.go:128-180` | Over any chain of changes, by reload or by the Runtime API and whatever earlier failures left behind, users have after a success what a reload of the new file gives; after a failure the proxy is as it was or users have what the old file gives, unless the way back failed too. What other services show stays. With the backends there and ports in the addresses only a failed command makes it fail, and it takes a second one to spoil the way back. No worker is started when nothing but servers changed. |
| `HAProxyGenerate.GenerateBundledConfig` | `internal/provider/haproxy_routes.go:55-112` | The file and the route of a config: the route names its backends after the upstream, and its preview fields are set only while a preview is live. What the backends list is `HAProxyServes.FileLists`. |
| `HAProxyGenerate.RoutesHaveBackends` | `internal/provider/haproxy_routes.go:60-73` | Every backend the frontend may choose for a service is in its file. |
| `HAProxyGenerate.SectionsAreWritten` | `internal/provider/haproxy_routes.go:89-106` | Every config with plain names and addresses becomes a file the fast path can take, its backends with names of their own. |
| `HAProxyGenerate.ReleaseConfigsAreSteady` | `internal/provider/haproxy_runtime.go:127-149` | No config of a release, an abort or a restart marks a server both draining and backup. |
| `HAProxyGenerate.QuoteMatches` | `internal/provider/haproxy_routes.go:114-117` | The pattern of a path rewrite matches the path and nothing else, whatever characters are in it. |
| `HAProxyServes.SectionWanted` | `internal/provider/haproxy_routes.go:89-117` | Every backend keeps clients as the labels say and rewrites the path, word by word, except the preview host's, which never does. |
| `HAProxyServes.FileLists` | `internal/provider/haproxy_routes.go:55-112` | Read back from the text, the part named as the main backend of the route lists exactly the servers of the config, in order, with address, weight, state and backup mark, and the preview and link backends those of the preview; each has one part. |
| `HAProxyServes.RunningServes` | `internal/provider/haproxy_routes.go:165-178` | Once the file is applied, the running backend of the route has exactly the servers of the config under their names, its ready non-backup addresses are the live ones of the config, and the preview backends have those of the preview. |
| `HAProxyServes.UsersReach` | `internal/provider/haproxy_routes.go:128-309` | From end to end: once a config is applied, a request to a host of the service without the token reaches exactly the live servers of the config, and one with the token of a live preview exactly those of the preview. |
| `Frontend.NoteHosts` | `internal/provider/haproxy_routes.go:246-255` | Fails exactly when a host, whatever its case, was used before. |
| `Frontend.RenderFrontend` | `internal/provider/haproxy_routes.go:235-310` | Rejects the routes exactly when a host is used twice. |
| `Frontend.RenderRules` | `internal/provider/haproxy_routes.go:285-307` | The rules of one route, in order. |
| `Frontend.RouteCondition` | `internal/provider/haproxy_routes.go:360-372` | The condition of a route, with the guard that keeps hostless routes from named hosts. |
| `Routing.RunRoute` | `internal/provider/haproxy_routes.go:285-307` | Running the rules of one route does to a request exactly what the route says. |
| `Routing.FrontendWalks` | `internal/provider/haproxy_routes.go:262-309` | The whole frontend answers every request as its routes say, one after the other. |
| `RouteOrder.RoutesOf` | `internal/provider/haproxy_routes.go:211-221` | A service's routes: its preview host's, if live, and its own. Whom they send requests to is `SavedRoutes.ServiceHost`. |
| `RouteOrder.BundledRoutes` | `internal/provider/haproxy_routes.go:182-233` | The routes of all services, none lost or doubled, hosts first and longer paths first. |
| `RouteOrder.OneOwner` | `internal/provider/haproxy_routes.go:246-255` | In an accepted frontend no two routes share a host. |
| `RouteOrder.NamedHost` | `internal/provider/haproxy_routes.go:269-308` | A named host belongs to its route alone: the path decides between that route and 404, and a request with the live token never reaches the main backend. |
| `RouteOrder.UnnamedHost` | `internal/provider/haproxy_routes.go:223-231` | Any other host goes to the hostless route with the longest path that the request's path starts with, the first in order among equals, and to 404 if there is none. |
| `RouteOrder.PreviewHost` | `internal/provider/haproxy_routes.go:211-218` | A preview host answers the requests that carry its token from the preview backend. |
| `SavedRoutes.ServiceHost` | `internal/provider/haproxy_routes.go:182-309` | Said of the saved routes alone: a request to a host of a service is answered by that service's backend, by its link backend if it carries the live token, by the cookie if its URL does, by https first where asked for, and by 404 off its path. |
| `SavedRoutes.ServicePreview` | `internal/provider/haproxy_routes.go:211-218` | A request to a live preview host with the token, if there is one, gets the saved preview backend, whatever its path. |
| `SavedRoutes.ServicePath` | `internal/provider/haproxy_routes.go:182-309` | A request to a host no service has goes to the saved hostless service with the longest matching path, the first backend name deciding between equals. |
| `SavedRoutes.NoService` | `internal/provider/haproxy_routes.go:182-309` | With no such service it is 404. |
| `LinkRules.LinkIsNotLogged` | `internal/provider/haproxy_routes.go:285-356` | A request whose URL carries the token of a service is silenced in the log before anything else, and then sent on to https or answered with a URL from which the token was taken. |
| `LogTee.Tee.Write` | `internal/accesslog/hub.go:85-106` | Every byte goes to the writer behind, and only what it took counts; what is kept, published and heard by each subscriber follows from that and the buffer. |
| `LogTee.Tee.PublishLines` | `internal/accesslog/hub.go:91-100` | Every subscriber hears exactly the accepted whole lines, in order, and the unfinished one is kept. |
| `LogTee.ChunksDoNotMatter` | `internal/accesslog/hub.go:69-71` | For every way the stream is cut into writes the published entries are the accepted whole lines of the stream, as long as no unfinished line is over 64 KiB at the end of a write. |
| `LogTee.LinesAre` | `internal/accesslog/hub.go:91-105` | Every text is its whole lines with their line ends, and the unfinished one. |
| `LogTee.BufferIsBounded` | `internal/accesslog/hub.go:65-67` | The buffer never holds a line end or more than 64 KiB. |
| `LogTee.LongLineLosesItsBeginning` | `internal/accesslog/hub.go:91-105` | Of a line over 64 KiB at the end of a write the beginning is forgotten; the rest up to its line end is read as a line of its own. |
| `LogTee.BufferIsUnfinished` | `internal/accesslog/hub.go:101-104` | The buffer holds the unfinished line after every write exactly if none is ever over the limit. |
| `LogTee.Hub.Subscribe` | `internal/accesslog/hub.go:36-50` | A new subscriber gets an id of its own and hears from then on. |
| `LogTee.Hub.Publish` | `internal/accesslog/hub.go:53-63` | Every current subscriber hears the entry once. |
| `NginxLog.UnescapeNginx` | `internal/accesslog/parse.go:144-160` | Each `\xHH` becomes its byte and all else stays. |
| `NginxLog.UnescapeInverts` | `internal/accesslog/parse.go:143-160` | Unescaping undoes every such escaping of every byte string, whichever bytes are escaped, if the backslash is among them. |
| `NginxLog.TrailerFound` | `internal/accesslog/parse.go:34-38` | The trailer is found in every line that ends in one, whatever text comes before. |
| `NginxLog.TrailerIs` | `internal/accesslog/parse.go:34-38` | What is found is the end of the line, so a line has one trailer at most. |
| `NginxLog.ReadNginxLine` | `internal/accesslog/parse.go:45-66` | The entry of a line, or nothing for error log lines, lines without a trailer and requests no app container answered. |
| `NginxLog.LastServerIs` | `internal/accesslog/parse.go:56-64` | The server that answered is read from every list of retries and redirects. |
| `NginxLog.NginxRoundTrip` | `packaging/nginx/nginx.conf:28-31` | Reading what the log format prints gives status, last server, lower-case host and path without query, for any client text, if quotes and backslashes are escaped. |
| `NginxLog.ErrorLineIsNothing` | `internal/accesslog/parse.go:36-50` | A line that begins like one of the error log is no entry, whatever it ends in. |
| `NginxLog.RequestExactly` | `internal/accesslog/parse.go:115-138` | A line with a trailer is an entry exactly if its status is one from 100 to 599 and its upstream has an address and a port. |
| `NginxLog.NobodyAnswered` | `internal/accesslog/parse.go:125-130` | A request that no container answered is no entry. |
| `NginxLog.UrlIsServer` | `internal/accesslog/parse.go:120-138` | An upstream written as a URL and a host with its port give the same entry. |
| `NginxRoutes.NginxServerNames` | `internal/provider/nginx_files.go:64-75` | The hosts a route file names, in lower case. |
| `NginxRoutes.NamesAre` | `internal/provider/nginx_files.go:64-75` | Those are exactly the hosts that some line of the file names. |
| `NginxRoutes.CheckRouteConflicts` | `internal/provider/nginx_files.go:27-62` | Fails exactly if a changed route file names a host of an unchanged one, or names any host while another route file cannot be read. |
| `NginxRoutes.StaysApart` | `internal/provider/nginx_files.go:20-62` | So applied changes and clean-ups keep every host in one route file. |
| `NginxRoutes.ServerNameRoundTrip` | `internal/provider/nginx.go:222` | The hosts written after `server_name` are read back. |
| `Protocol.KeepsLocks` | `internal/state/lock.go:24-59` | Every action of any thread, crashes included, keeps each lock with the one thread that may drop it. |
| `Protocol.MutualExclusion` | `internal/state/lock.go:15-20` | For any number of processes and any interleaving, no two threads are inside a release, a deploy or a refresh of one service. |
| `Protocol.CommandsRunOnce` | `internal/state/commands.go:99-110` | Each queued command is claimed at most once and run by no one but its claimant. |
| `Protocol.CrashFreesLocks` | `internal/state/lock.go:18-20` | A crash never leaves a service locked. |
| `Protocol.NoCrashNoStrayCommand` | `internal/state/commands.go:112-118` | Without crashes and failed removals every claimed command is in someone's hands until it is done. |
| `Protocol.StrayForEver` | `internal/state/commands.go:73-76` | A command in nobody's hands is never run again by anyone. |
| `Protocol.StrayExactly` | `internal/state/commands.go:99-118` | Over all runs: a command under way is in nobody's hands exactly when the process that claimed it crashed after the claim, or the thread that was done with it could not remove its file. |
| `Protocol.StrandingRunStrands` | `internal/state/commands.go:99-110` | The run that strands a command: poll, claim, crash. |
| `Protocol.LeavingRunLeaves` | `internal/state/commands.go:112-118` | A run without a crash that leaves a command behind: its file cannot be removed. |
| `Protocol.LockNamesExactly` | `internal/state/lock.go:36-39` | Two services share a lock file exactly when they are the same or the names of one run into those of the other, with and without a project. |
| `Protocol.PlainProjectsKeepApart` | `internal/state/lock.go:36-39` | Services of projects with no underscore in their names, or of no project at all, never share one. |
| `Protocol.SharedLock` | `internal/state/lock.go:36-39` | Two pairs of services that do share one, with names that are allowed. |
| `StateDirectory.StateDir.AcquireDeployLock` | `internal/state/lock.go:24-59` | Gets the lock exactly when nobody has it and its file can be opened, and at once; a failure leaves all locks as they are. |
| `StateDirectory.StateDir.PendingReleaseCommands` | `internal/state/commands.go:62-97` | All pending commands of the project, or of all projects, and no others, oldest first and none twice; only files that cannot be read are missing, one of which spoils a project's list. |
| `StateDirectory.StateDir.ClaimReleaseCommand` | `internal/state/commands.go:99-110` | Succeeds exactly if the command still waits and the rename works, and takes it out of the queue for everyone else. |
| `StateDirectory.StateDir.CompleteReleaseCommand` | `internal/state/commands.go:112-118` | A completed command is gone from the directory, unless its file cannot be removed; then the directory is as it was, and the thread goes on. |
| `StateDirectory.StateDir.Release` | `internal/controller/release.go:96-192` | However others interleave, a release ends with the lock either dropped by its thread or owned by the deploying one. If nothing forbids it and it works out, a deploying thread is started, unless somebody had the lock just then or its file cannot be opened. |
| `StateDirectory.StateDir.RunCommand` | `internal/controller/release.go:47-72` | The same for one command: claimed, run and taken away. |
| `StateDirectory.StateDir.ProcessReleaseCommands` | `internal/controller/release.go:29-73` | Of the commands seen none waits any more in the end; those this thread got are done, and led to a deploying thread or found the lock taken if their release could begin; whatever others do meanwhile, unless a rename, a removal or a lock file fails. |
| `StateDirectory.StateDir.RefreshServiceConfig` | `internal/controller/configsync.go:320-360` | A refresh happens exactly if nobody has the lock and its file can be opened, with the lock in hand, and leaves it free for others. |

## Left out

- Docker, Compose, exec and one-off containers: only their outcomes, as effects that take or fail.
- Time: timeouts, drains, soaks and intervals end or are cancelled, whichever the environment picks; a wait of any positive length is long enough for the requests in flight. The 30 s deadlines and tickers are not there.
- The labels a rollback reads are those of the release, or none.
- Deployment ids, the wording of reasons, random tokens and cookie hashes: opaque text or left out.
- The health monitor and cancellation through the API: both are cancellation, which can come anywhere.
- The `none` provider, which gives containers no address: releases here have distinct addresses.
- A release with several Compose projects, and waiting for missing new containers: the set of new containers is fixed when the strategy starts.
- A start looks at one service, with at least one container running, and assumes the labels it reads are those of the release; a service of which nothing runs is not synced.
- Initial sync and manual rollback in the lock protocol: neither takes the deploy lock.
- Caddy, Traefik, Angie and nginx templates beyond `server_name`, and the stock template of nginx-proxy: their meaning is decided by programs that are not in the repository.
- The HAProxy frontend's certificates, log format and redirect text, and how it matches wildcard hosts: a host acl here is equality of lower-case text.
- The first start of a bundled proxy, before it runs: there is nothing yet to bring up to date.
- JSON logs of Caddy and Traefik and the JSON escaping of HAProxy: read by a library.
- The socket that carries entries to other processes: after an overflow it may still deliver entries, so its own comment is no contract.
- Delivery to a subscriber that cancels while an entry is being published.
- Text: blanks are space, tab, carriage return and line feed; lower case is ASCII; a malformed server line is an error where the program would panic.
- RouteOrder.BundledRoutes: sorts by insertion where the program calls the library's sort; only the order it leaves matters.
- Deploy.Releases: between two releases only new containers are started, and it stops at the first that does not follow a clean end.
- BlueGreenStrategy.Execute: takes the requests the log delivers during the window, whether the log is lost, and whether the window was over first, as a parameter.
- StateDirectory.StateDir.PendingReleaseCommands: lists the directory at one moment, and sorts by insertion where the program calls the library's sort.
- StateDirectory.StateDir.Release: does not model what is done between taking the lock and handing it over; a parameter says whether it works out, and another whether the saved state forbids the release.
- ConfigFiles.Disk.Apply: does not look inside a write (temporary file and rename) and assumes that the lock on the directory is held.
