# Verification of the mcdash model

mcdash runs Minecraft worlds on Kubernetes: each world is a stored record, a
Helm release, a volume, and Jobs that snapshot or seed that volume. This project
models the parts of it whose correctness does not show in any single function,
and proves what they promise.

| files | what they model |
|---|---|
| `Lifecycle`, `LifecycleRuns` | user calls and the reconciler as lists of single writes, interleaved with a cluster that moves by itself and with crashes between any two writes |
| `LifecycleInvariant`, `LifecycleSteps`, `LifecycleBegins`, `LifecycleSafety` | the invariant of these runs, kept by the cluster, by single writes and by calls; the safety results |
| `LifecycleForgotten`, `LifecycleLimits` | where those results end |
| `LifecyclePledge`, `LifecycleIntent`, `LifecycleTold`, `LifecycleContents` | what an accepted call comes to over every run until the next one, and what is then on the volume and in the store |
| `LifecycleProgress`, `LifecycleCalls` | progress of the reconciler, resumption after a crash |
| `LifecycleService` | the class `WorldService`, which performs the same writes step by step |
| `Ports` | game and RCON ports over all worlds, including failed installs and lost records |
| `Players` | whitelist and admins: live edits against stopped edits |
| `RconPool`, `RconSlots`, `RconEviction`, `RconWire` | the retry protocol of a batch, the pool in memory, the interleaving of runs, sweeps and the eviction that writes its flag without the lock, and the wire format with its sentinel |
| `Lines`, `CommandTree`, `Redirects`, `RedirectPaths`, `Aliases`, `Completion` | the words of a line, the Brigadier walk against a declarative relation, what redirects stand for, and the suggestions |
| `SeedJob`, `WorldSearch`, `Snapshots`, `SeedPlaces`, `SeedContents` | finding a world in a zip, mapping members, zipping a directory and seeding from it, and which files that leaves |
| `BackupNames`, `Backups`, `Naming`, `NamingWords`, `NamingLetters` | file and world names and what is kept of them, the detection cache, pruning |
| `Collections`, `Wrappers` | sorting, strings, sets, Option |

`dafny verify dfyconfig.toml` checks everything.

## How runs are modelled

A service call is planned as a list of writes (`Lifecycle.Plan`,
`Lifecycle.AdvanceTodo`), following the order of the statements in
`src/mcdash/service.py`. A run (`LifecycleRuns.IsRun`) takes one write, one
cluster event, one new call or one crash at a time; a crash drops the writes
that are left. The cluster is that of `tests/backend/helpers.py:69-232`, with
pods that start, are told to terminate, finish and go on their own, Jobs that
end and expire, and a deleted volume that stays until its pods are gone.

Premises, each of which the source relies on:

- A Job is active, succeeded or failed; it takes at least one second of the
  clock, which does not run backwards; it can only end while its volume is there.
- A failed Helm upgrade changes nothing, uninstalling an absent release succeeds,
  and a listed release's values can be read. Kubernetes calls do not fail for a
  moment and then work. Reading a file fails only where the model says so.
- A server pod is told to terminate only when its Deployment is scaled to zero or
  removed, and a replacement starts after that.
- A record is not lost while an operation is pending or a call is under way;
  losing it otherwise, and rebuilding it, are events of `LifecycleRuns` and `Ports`.
- `atomic` (in `IsRun`): no crash falls between a successful install and the
  record that notes it, lines 1390-1391 and 1395-1396 of
  `src/mcdash/service.py`. Over all runs together both safety results hold if and
  only if this is so (`LifecycleLimits`). Run by run they need less: whatever
  crashes, they hold as long as no installed server is forgotten
  (`LifecycleInvariant.Forgotten`: no call is under way, and the record names a
  seed whose Job is gone, or a seed or install that failed); and any run that
  forgets one can go on to a second writer (`LifecycleForgotten`).
- `holds` and `told` in `LifecycleRuns` and `Lifecycle` are histories that no step looks
  at: the backup last extracted onto the volume, and what each Job was told to extract.
- RCON answers while a whitelist edit is applied; the server's own player lists
  ignore case, and change only by edits, starts and restores: commands that
  somebody types at the console are not part of `Players`.

## What turned out not to hold

- A crash between install and record, followed by the expiry of the finished seed
  Job, makes the reconciler seed underneath a running server
  (`SeedsUnderRunningServer`, `ForgottenServerIsOverwritten`); a failed repetition
  of that install lets a delete skip the snapshot of a world that was played
  (`DeletesPlayedWorld`).
- A launch that crashes before its volume exists is pending for ever and refuses
  every call (`CrashedLaunchIsStrandedIff`, `StrandedLaunchNeverRecovers`); one that
  crashes later is resumed (`LaunchIsResumedIff`).
- A start, a stop or a settings change that crashes between its record and its
  install is forgotten (`ReachableCallIsResumedIff`).
- With a retention of zero a snapshot step is not resumable after its own prune
  if its Job is gone (`SnapshotKeepsItsPlaceIff`, `KeepingNothingIsNotResumable`).
- An RCON port assigned by an install that failed is forgotten with the record and
  can go to another world (`RconPortCanChangeHands`, `PortsAreStable`).
- `is_valid_world_name` accepts a trailing newline, because its pattern ends in
  `$` (`NewlineSlipsThrough`, `ValidNameIsLabelIff`).
- Whitelist changes distinguish case and a server does not, so respelling a name
  in a live edit removes the player (`RespellingShutsOut`, `WhitelistFollowsIff`).
- A read of a zip that failed is remembered as "no world in it" until the file's
  size or time changes, and so is one that succeeded when a later one would fail
  (`CacheIsTransparentIff`, `SecondReadIsSeenIff`).
- Clearing the admins of a world that was never installed is not refused, and its
  volume keeps those of the backup; restoring a backup with admins into a world
  without any keeps them too; and a pod replaced without an install brings back the
  admins of the last one (`StepKeepsSyncIff`, `ClearedLaunchDrifts`,
  `RestartBringsAdminsBack`).
- The whitelist of a closed world fails to come into force after exactly these
  events, edits as far as they are accepted (`StepKeepsListIff`): an edit of a
  running world that respells a name, or that closes it over players it does not
  name; an edit of a starting world that changes the players (`FirstPlayerIsLate`);
  emptying the list of a world that is stopped or not yet installed
  (`LastPlayerStays`); restoring a backup with a list into a world that lists nobody;
  and replacing a pod whose install passed on another list (`RestartBringsListBack`).
  The next install makes it good unless the list is empty and the server's is not
  (`InstallMakesGoodIff`).
- The exclusion of files that the server makes again looks at the text in front of the
  first slash. A member whose name begins with `./`, or has a backslash in front of its
  first slash, passes it, and a full seed brings the loader's files after all
  (`NothingMadeAgainIff`, `DottedNameSlipsThrough`).
- A literal whose name begins with a slash is offered on an empty line although the
  completed line is not read as that literal (`WordIsReadBackIff`,
  `SlashedLiteralIsMissed`).

## Model

| member | source | states |
|---|---|---|
| LifecycleSafety.VolumeHasOneWriter | src/mcdash/service.py:1369-1392 | on every atomic run, and on any run until a server is forgotten: an active seed Job is the only one, the pending error-free operation names it, no server pod is live and the release is absent or scaled to 0; at most one live pod ever |
| LifecycleSafety.PlayedWorldIsNeverLost | src/mcdash/service.py:1015-1040 | on every atomic run, and on any run until a server is forgotten: every seed or volume deletion on a volume a server has run on comes after a snapshot that succeeded since the request; its file survives pruning if anything is kept |
| LifecycleSafety.DeletedWorldStaysDeleted | src/mcdash/service.py:414-418 | on the same runs, a release without a record is reachable only where a record was lost that had no operation pending, so the heal path never rebuilds a deleted world |
| LifecycleSafety.AtomicRunForgetsNothing | src/mcdash/service.py:1388-1396 | where no crash separates install and record, no installed server is ever forgotten |
| LifecycleForgotten.ForgottenServerIsOverwritten | src/mcdash/service.py:1288-1302 | the first forgotten server of any run can be overwritten: the run can be continued to a state in which a seed Job writes to the volume of an installed server, by repeating the seed or by a restore |
| LifecycleForgotten.SecondWriterWasForgotten | src/mcdash/service.py:1379-1392 | on every run a second writer only appears at or after a state in which a server was forgotten |
| LifecycleSafety.ReachableInv | src/mcdash/service.py:1330-1413 | the invariant behind the three results holds over every atomic run, and over any run up to the first forgotten server |
| LifecycleSafety.NextKeepsInv | tests/backend/helpers.py:69-232 | every service write, crash, cluster event and loss of a record without a pending operation keeps that invariant where no server is forgotten |
| LifecycleSteps.NewestKeepsMaximum | src/mcdash/service.py:1353-1356 | the snapshot an operation has just taken is not pruned by that operation if at least one is kept |
| Lifecycle.Newest | src/mcdash/backups.py:272-279 | pruning leaves min(keep, n) stamps, each later than any that goes |
| LifecycleIntent.RestoreBringsItsBackup | src/mcdash/service.py:1015-1028 | over every run, from an accepted restore to the next accepted call: the pending operation is that restore and carries the backup and Forge version asked for; every seed Job is told to extract that backup; if a seed ends it, record and release name both, with the settings the record had; a failed snapshot is on record; nothing else ends it |
| LifecycleIntent.StartRepeatsTheSeed | src/mcdash/service.py:915-938 | a start behind a failed seed repeats that seed, with its backup and Forge version, in the same sense |
| LifecycleIntent.LaunchEndsAsAsked | src/mcdash/service.py:835-859 | from an accepted launch on, record, operation and release only ever name its backup, Forge version and settings; every Job extracts that backup; the operation is over only once the release says the same |
| LifecycleIntent.CreateEndsAsAsked | src/mcdash/service.py:867-893 | from an accepted creation on, record and release only ever name its settings and no backup; no Job is made; the operation is over only once the release says the same |
| LifecycleIntent.SnapshotLeavesTheWorldAlone | src/mcdash/service.py:940-973 | until the next accepted call a snapshot changes neither what the record says of the world, nor the release, nor does the volume go; nothing is written but records, snapshot Jobs and prunes |
| LifecycleIntent.DeleteEndsTornDown | src/mcdash/service.py:1030-1040 | until the next accepted call a deletion installs nothing and seeds nothing; when its record goes, release, Jobs, volume and secret have gone before; a failed snapshot that ends it is on record |
| LifecycleIntent.StartEndsRunning | src/mcdash/service.py:915-938 | a start that repeats no seed ends with one replica of what its record describes, and until then the release is that or what it was |
| LifecycleIntent.StopEndsStopped | src/mcdash/service.py:989-1006 | a stop ends with no replica and all else as it was |
| LifecycleIntent.SettingsEndInstalled | src/mcdash/service.py:1045-1056 | new settings end up in the record and in a release with its replicas; those that come with a whitelist in the record only; source, Forge version and operation stay |
| LifecycleIntent.AcceptedIff | src/mcdash/service.py:785-800 | exactly when each user call is accepted, by the name's traces in the cluster, the pending operation, the step that failed, and a server that is still shutting down |
| LifecycleContents.SeedEndsOnItsBackup | src/mcdash/service.py:1379-1392 | on every atomic run, and on any until a server is forgotten: when an operation is over because its seed succeeded, what was last extracted onto the volume is its backup |
| LifecycleContents.RestoreEndsOnItsBackup | src/mcdash/service.py:1015-1028 | so a restore ends with the backup asked for on the volume, in the record and in the release |
| LifecycleContents.LaunchEndsOnItsBackup | src/mcdash/service.py:835-859 | and a launch with the backup it was launched from |
| LifecycleContents.SnapshotEndsWithItsFile | src/mcdash/service.py:1340-1368 | on the same runs, a snapshot step that ends an operation without a failure on record has its snapshot in the store's history |
| LifecycleProgress.StepLowersRank | src/mcdash/service.py:1330-1413 | a step that reports progress lowers the rank; one that does not has ended, failed, or waits for the cluster |
| LifecycleProgress.RankIsAtMostThree | src/mcdash/service.py:1312-1323 | the rank is below the loop bound of five |
| LifecycleProgress.ReconcilerRunsToAStop | src/mcdash/service.py:1312-1323 | the reconciler stops only where there is nothing to do or it has to wait, never because of its bound |
| LifecycleProgress.CrashedStepIsResumed | src/mcdash/service.py:1330-1408 | crashing after any number of a step's writes and reconciling again gives the state of the uninterrupted pass |
| LifecycleProgress.ReachableStateIsResumable | src/mcdash/service.py:975-987 | the condition of that lemma holds in every reachable state with a record if something is kept and no server was forgotten |
| LifecycleProgress.StepsDoNotMatter | src/mcdash/service.py:1312-1323 | any two bounds above the rank lead to the same state |
| LifecycleCalls.ReachableCallIsResumedIff | src/mcdash/service.py:835-1056 | over every run without a forgotten server: a user call that crashes after its n-th write ends where the whole call ends, after reconciling, if and only if: for a launch, its volume exists (n >= 3); for a start, stop or settings change, the install was done or would change nothing, or a seed is repeated; always for the others |
| LifecycleCalls.CrashedCallIsResumedIff | src/mcdash/service.py:835-1056 | the same for any cluster without a Job or snapshot of this very second |
| LifecycleCalls.LaunchIsResumedIff | src/mcdash/service.py:844-850 | a crashed launch is resumed if and only if it got past its volume |
| LifecycleCalls.SaveAndInstallIff | src/mcdash/service.py:915-938 | saving a record and then installing is made good after a crash if and only if the install was done or would change nothing |
| LifecycleCalls.SaveAndCreateIsMadeGood | src/mcdash/service.py:940-973 | an operation stored before its Job is picked up whether or not the Job was created |
| LifecycleCalls.CreateIsResumed | src/mcdash/service.py:867-893 | creating a world is resumed after every write |
| LifecycleLimits.OneWriterIffInstallsAreRecorded | src/mcdash/service.py:1390-1391 | a single writer over all runs if and only if no crash separates install and record |
| LifecycleLimits.PlayedWorldIsSafeIffInstallsAreRecorded | src/mcdash/service.py:1033-1036 | no loss of a played world over all runs if and only if no crash separates install and record |
| LifecycleLimits.SeedsUnderRunningServer | src/mcdash/service.py:1288-1302 | without that premise a reachable state has an active seed Job under a live server |
| LifecycleLimits.DeletesPlayedWorld | src/mcdash/service.py:1034-1036 | without that premise a reachable step deletes a played world that has no snapshot |
| LifecycleLimits.StrandedLaunchNeverRecovers | src/mcdash/service.py:911-938 | a launch without a volume stays pending over every continuation and every start, stop, restore and delete is refused |
| LifecycleLimits.LaunchCanBeStranded | src/mcdash/service.py:848-850 | every first launch that crashes right after its first write is stranded |
| LifecycleLimits.CrashedLaunchIsStrandedIff | src/mcdash/service.py:848-850 | wherever a launch is accepted it can crash after any n of its writes, and is then stranded if and only if n is 1 or 2 |
| LifecycleLimits.KeepingNothingIsNotResumable | src/mcdash/service.py:1288-1293 | with retention 0 a reachable state loses its place in a crash |
| LifecycleLimits.SnapshotKeepsItsPlaceIff | src/mcdash/service.py:1340-1368 | a snapshot step that has succeeded keeps its place over a crash after any write if and only if something is kept or its finished Job is still there |
| LifecycleService.WorldService.Advance | src/mcdash/service.py:1330-1413 | changes the cluster exactly as the planned writes of the step, and reports progress accordingly |
| LifecycleService.WorldService.AdvanceSnapshot | src/mcdash/service.py:1340-1368 | the same for the snapshot step of every kind of operation |
| LifecycleService.WorldService.GoOn | src/mcdash/service.py:1357-1368 | the writes that follow a snapshot are those planned for its kind of operation |
| LifecycleService.WorldService.AdvanceDrain | src/mcdash/service.py:1369-1378 | waits while a pod is live, otherwise stores the new Job before creating it |
| LifecycleService.WorldService.AdvanceSeed | src/mcdash/service.py:1379-1392 | waits for the Job, fails with it, otherwise installs and then stores what was seeded |
| LifecycleService.WorldService.AdvanceInstall | src/mcdash/service.py:1393-1397 | creates what is missing, installs, stores; a failed install is recorded |
| LifecycleService.WorldService.AdvanceTeardown | src/mcdash/service.py:1398-1408 | release, Jobs, volume, secret and record go in this order |
| LifecycleService.WorldService.AwaitedJob | src/mcdash/service.py:1279-1302 | gives the finished Job or None, takes an existing zip for success, re-creates a missing Job |
| LifecycleService.WorldService.ReconcileWorld | src/mcdash/service.py:1312-1323 | the bounded loop comes to the reconciled cluster, healing a lost record on the way |
| LifecycleService.WorldService.Load | src/mcdash/service.py:414-418 | a release without a record gets its record back |
| LifecycleService.WorldService.CreateVolumeAndSecret | src/mcdash/service.py:802-810 | creates what is missing and leaves what is there |
| LifecycleService.WorldService.LaunchWorld | src/mcdash/service.py:835-859 | accepted exactly for an unknown name, and then performs the planned writes |
| LifecycleService.WorldService.CreateWorld | src/mcdash/service.py:867-893 | the same for a new world, including a failing install |
| LifecycleService.WorldService.StartWorld | src/mcdash/service.py:915-938 | repeats a failed seed, refuses while pods shut down, otherwise scales to 1 |
| LifecycleService.WorldService.StopWorld | src/mcdash/service.py:989-1006 | refuses what is not installed or already stopped, otherwise scales to 0 |
| LifecycleService.WorldService.StartSnapshot | src/mcdash/service.py:940-973 | stores the operation before the Job, refuses while pods shut down |
| LifecycleService.WorldService.TakeASnapshot | src/mcdash/service.py:1008-1013 | accepted exactly when the plan is, with its writes |
| LifecycleService.WorldService.RestoreWorld | src/mcdash/service.py:1015-1028 | accepted as planned with the planned writes; what they come to is RestoreBringsItsBackup |
| LifecycleService.WorldService.RecordDeletion | src/mcdash/service.py:1030-1040 | skips the snapshot exactly where nothing ever ran or the data is known to be broken |
| LifecycleService.WorldService.UpdateSettings | src/mcdash/service.py:1045-1056 | stores the settings and installs them with the replicas the release has |
| Ports.PortsNeverClash | src/mcdash/service.py:464-512 | over every run all ports of all worlds lie in their ranges and differ pairwise |
| Ports.PortsAreStable | src/mcdash/service.py:390-437 | a world's game port never changes; its RCON port stays if and only if no event drops it |
| Ports.AllocationSucceedsWhileThereIsRoom | src/mcdash/service.py:785-800 | an unknown name is refused if and only if an old volume bears it or a range is full, so never for want of ports while worlds are fewer than ports |
| Ports.RoomForOneMore | src/mcdash/service.py:471-490 | fewer worlds than ports leave a port free (pigeonhole) |
| Ports.LowestIsLowest | src/mcdash/service.py:471-479 | the scan finds the smallest free port, or none exists |
| Ports.Allocate | src/mcdash/service.py:465-490 | the loop computes that port |
| Ports.RconPortCanChangeHands | src/mcdash/service.py:492-512 | a run in which one world's RCON port is later assigned to another |
| Players.AdminsNeverDrift | src/mcdash/service.py:1015-1126 | over every run that starts in sync, restores included, the server has, or will have when up, exactly the record's admins and access mode until an event drifts, and the first that does breaks it |
| Players.RecordStaysPlayable | src/mcdash/service.py:248-257 | over every run from a record whose names have one to sixteen letters, digits and underscores and, on a closed world, whose admins are all listed, every record is like that; and an edit is refused for its names if and only if what it asks for is not |
| Players.StepKeepsSyncIff | src/mcdash/service.py:1079-1118 | an event keeps the sync if and only if it is none of these: an accepted edit that clears the admins of a world not yet installed whose volume holds some, a pod replaced while its install passed on other admins or another access mode, a restore of a backup with admins where the record has none |
| Players.ClearedLaunchDrifts | src/mcdash/service.py:1094-1097 | a world launched from a backup with admins, whose own admins are then cleared before it is installed, comes up with those of the backup |
| Players.LaunchIsInSyncIff | src/mcdash/helmops.py:287-330 | a launched world starts in sync if and only if it has admins or its backup has none |
| Players.RestartBringsAdminsBack | src/mcdash/service.py:1114-1118 | after a live edit of admins that the install had passed on, a replaced pod brings the old ones back |
| Players.WhitelistStaysInForce | src/mcdash/service.py:1058-1126 | over every run that starts with its list in force, a closed world lets in, or will when up, exactly the listed players until an event is late or loses the list, and the first that is breaks it |
| Players.StepKeepsListIff | src/mcdash/service.py:1079-1118 | an event keeps the list in force if and only if it is none of those named above: an accepted closed edit that misses the list, a live pod replaced while its install passed on other players, a restore of a list where the record is closed and empty |
| Players.EditKeepsListIff | src/mcdash/service.py:1098-1118 | an accepted edit that leaves the world closed misses the list if and only if: live, it respells a name or closes over players it does not name; starting, it changes the players; stopped or not installed, it names nobody and the server's list is not empty |
| Players.InstallMakesGoodIff | src/mcdash/helmops.py:287-330 | whatever was missed, an install brings the whitelist of a closed world unless it is empty and the server's is not, and the admins likewise |
| Players.FirstPlayerIsLate | src/mcdash/service.py:1081-1118 | a new closed world that is starting and lists nobody accepts its first player and boots without |
| Players.LastPlayerStays | src/mcdash/helmops.py:319-326 | taking the last player off the list of a stopped, closed world is accepted and the next start still lets them in |
| Players.RestartBringsListBack | src/mcdash/service.py:1102-1118 | after a live edit of a list that the install had passed on, a replaced pod brings the old list back |
| Players.LiveEditMatchesRestart | src/mcdash/helmops.py:287-330 | the commands of a live edit reach the admins that the same edit on a stopped world reaches at its next start |
| Players.StoppedRefusalIsExact | src/mcdash/service.py:287-305 | an edit of a stopped world is refused if and only if the next start would not bring the new admins |
| Players.StartingRefusalIsExact | src/mcdash/service.py:1081-1093 | an edit of a starting world is refused if and only if the booting server would miss the new admins or access mode |
| Players.WhitelistFollowsIff | src/mcdash/service.py:1102-1105 | a live edit reaches the new whitelist if and only if it respells no name |
| Players.ClosingAdmitsEveryoneIff | src/mcdash/service.py:1099-1107 | closing an open world admits everybody listed if and only if no name is respelled, and nobody else if and only if in addition nobody is left whom the edit does not name |
| Players.RespellingShutsOut | src/mcdash/service.py:1102-1105 | a change of case alone leaves the running server's whitelist without the player |
| Players.CommandsDo | src/mcdash/service.py:1098-1113 | the server's lists after all commands of an edit, as sets |
| Players.ClosesLast | src/mcdash/service.py:1101-1107 | after any of an edit's commands that close a world, if the whitelist is in force it is already the final one |
| Players.UniqueKeepsSpellings | src/mcdash/service.py:1067 | the whitelist asked for has every stripped, non-empty spelling once and nothing else |
| Players.DedupeKeepsPlayers | src/mcdash/service.py:260-266 | removing duplicates loses nobody and leaves nobody twice, ignoring case |
| Players.DedupePlayers | src/mcdash/service.py:260-266 | the loop computes the deduplicated list |
| Players.NextOpsAre | src/mcdash/service.py:274-284 | the admins left are those asked for, less whom a closed world's whitelist has just lost |
| Players.World.SetWhitelist | src/mcdash/service.py:1058-1126 | answers with the first refusal that applies and otherwise changes record and running server as specified |
| Players.World.CommandsFor | src/mcdash/service.py:1101-1111 | the loops build the command list in order |
| RconPool.NoCommandRunsTwice | src/mcdash/rcon.py:268-331 | without retry of sent commands each runs at most once; on success once each in order with its own reply, on failure a prefix, and the connection is gone |
| RconPool.AtMostOneRepeat | src/mcdash/rcon.py:268-331 | with retry of sent commands at most one runs twice |
| RconPool.AttemptsAreBounded | src/mcdash/rcon.py:307-331 | at most one attempt more than there are commands |
| RconPool.ConnectionIsKept | src/mcdash/rcon.py:310-331 | a connection is opened only where there was none or after one broke, and is otherwise used for every later command |
| RconPool.LastReplyIsNoted | src/mcdash/rcon.py:329-331 | a batch that sends anything and succeeds leaves the time of its last attempt, with its connection |
| RconPool.OneFailureIsSurvivedIff | src/mcdash/rcon.py:319-328 | a single failure is survived if and only if it hit a reused connection that looked alive and repeating is allowed or harmless |
| RconPool.FlawlessBatchSucceeds | src/mcdash/rcon.py:307-331 | without failures the batch succeeds |
| RconSlots.Pool.Run | src/mcdash/rcon.py:268-331 | too long a command changes nothing; otherwise every command that is added to what the server ran went out on a connection dialled with the key of this very run, and if the slot's connection had another key or none that was still wanted, on one dialled during this run; the slot ends as the batch from the still usable connection says, its last reply's time noted; other slots unchanged |
| RconSlots.Pool.RunOn | src/mcdash/rcon.py:307-331 | the loop equals the recursive batch |
| RconSlots.Pool.TryOnce | src/mcdash/rcon.py:311-330 | one attempt, with the exact conditions under which it is repeated |
| RconSlots.Pool.SlotFor | src/mcdash/rcon.py:246-253 | one slot per world, made on first use and kept |
| RconSlots.Pool.Evict | src/mcdash/rcon.py:344-356 | drops an idle slot, only marks one in use, touches no other |
| RconSlots.Pool.NoteTarget | src/mcdash/rcon.py:333-342 | another or no pod makes the old connection unusable, the same pod changes nothing |
| RconSlots.Pool.SweepIdle | src/mcdash/rcon.py:358-378 | closes exactly the idle connections that are marked or expired, and lists them |
| RconEviction.EvictedConnectionIsNeverReused | src/mcdash/rcon.py:344-378 | under every interleaving a run that got the lock after an eviction returned never sends on a connection opened before that eviction was called |
| RconEviction.CommandsNeverOverlap | src/mcdash/rcon.py:303-320 | two commands are never in flight at once on a world |
| RconEviction.EvictionNeverBlocks | src/mcdash/rcon.py:344-356 | whatever other threads do, an eviction's next step is possible |
| RconWire.LittleEndianRoundTrip | src/mcdash/rcon.py:66-68 | every int32 survives its four bytes |
| RconWire.ParseOfEncoded | src/mcdash/rcon.py:187-194 | an encoded packet is read back and the rest of the stream is untouched |
| RconWire.FramingRoundTrip | src/mcdash/rcon.py:172-194 | a stream of packets and an incomplete tail yields exactly those packets |
| RconWire.CutPacketIsIncomplete | src/mcdash/rcon.py:172-194 | no proper prefix of a packet is taken for one |
| RconWire.CommandBytes | src/mcdash/rcon.py:66-68 | a command and its sentinel byte by byte: length, request number, type 2 or 0, text, two zeros, numbers from the lowest byte on |
| RconWire.LengthIsRefusedIff | src/mcdash/rcon.py:187-194 | a stream is given up if and only if its first four bytes say a length below 10 or above 5134 |
| RconWire.Socket.ReadExact | src/mcdash/rcon.py:172-185 | takes exactly n bytes however they arrive, or fails if the stream ends |
| RconWire.Socket.ReceivePacket | src/mcdash/rcon.py:187-194 | takes the packet in front of the stream, rejects sizes out of range |
| RconWire.ReceiveAll | src/mcdash/rcon.py:172-194 | for every split of a stream into pieces, repeated receiving gives the packets |
| RconWire.Client.Command | src/mcdash/rcon.py:136-162 | a failed first send is reported as unsent, a failed sentinel send is not, otherwise the answer of the stream |
| RconWire.Client.Collect | src/mcdash/rcon.py:154-162 | the loop gives the reply of the stream and leaves what is behind the sentinel |
| RconWire.SentinelEndsTheReply | src/mcdash/rcon.py:136-162 | over an in-order server the reply is the concatenation of its parts and the stream is left right behind the sentinel's reply |
| RconWire.UnsentCommandIsNotExecuted | src/mcdash/rcon.py:143-149 | a command reported as unsent never completed a packet at the server |
| CommandTree.Walk | src/mcdash/completion.py:269-307 | ends are exactly the nodes reachable by reading all words, arguments the line stops in are exactly those reachable, each place is expanded once; terminates over cyclic redirects; what one step reads is Redirects.StepIff |
| CommandTree.SeenIsReachable | src/mcdash/completion.py:278-306 | an exhausted worklist has seen exactly the reachable places |
| CommandTree.ClosedHoldsReachable | src/mcdash/completion.py:269-307 | every path stays in a set closed under steps |
| CommandTree.Expand | src/mcdash/completion.py:287-306 | a literal that matches hides the arguments; otherwise every argument that accepts the words it takes |
| Redirects.KidsAre | src/mcdash/completion.py:235-245 | exactly one node's children may follow a node: where the redirect's path leads from the root, name by name, a missing one staying where it is; the root for a childless literal that runs nothing; else the node itself |
| Redirects.StepIff | src/mcdash/completion.py:287-306 | one step of the walk, said without the code's functions: the literal that a word spells, or spells in lower case where no child bears the word itself, is the only way on; otherwise each argument that takes as many words as it is wide and accepts them all |
| Redirects.StopsInsideIff | src/mcdash/completion.py:294-306 | the same for the arguments that the words end in |
| Aliases.AlikeCommandsCompleteAlike | src/mcdash/completion.py:235-245 | behind two commands that the same may follow, any further words reach the same places, with the index shifted, and the same candidates and hints are offered |
| Aliases.AliasIsCompletedAsItsCommand | src/mcdash/completion.py:236-240 | so a literal of the root that is redirected to a command is completed like that command spelled out |
| Aliases.DeadEndBeginsAnew | src/mcdash/completion.py:241-244 | and behind a childless literal that runs nothing a whole new command begins |
| Aliases.MissingPartIsPassedOver | src/mcdash/completion.py:238-239 | a part of a redirect that no child bears changes nothing |
| Completion.OfferedLiteralIsReached | src/mcdash/completion.py:345-383 | a literal that is offered, put in place of the partial word of the line, is read back as that word if and only if it can be taken for one word there; the walk over the completed line then reaches it, and only then if lower-casing keeps lengths and makes no spaces |
| Completion.NotOneWordIsNotReached | src/mcdash/completion.py:345-365 | no literal whose name cannot be taken for one word there is reached by the completed line |
| Lines.WordIsReadBackIff | src/mcdash/completion.py:353-355 | any text in place of the partial word gives the same finished words and that text if and only if it has no space and, behind nothing but white space, begins with neither white space nor a slash |
| Completion.SlashedLiteralIsMissed | src/mcdash/completion.py:353-355 | a tree with a literal named /wand, which is offered on the empty line and not reached by the completed one |
| Completion.OfferedWordIsReached | src/mcdash/completion.py:359-365 | behind the finished words, the walk over the literal as one word reaches it |
| Lines.SplitBehind | src/mcdash/completion.py:354 | replacing what follows the last space replaces the last piece only |
| Completion.WalkIsStable | src/mcdash/completion.py:269-307 | a further word does not change where the earlier ones lead |
| Completion.Suggest | src/mcdash/completion.py:345-383 | the offset leaves the partial word; at most fifty insertable items, all of them candidates, better matches first, then literals, then by spelling, no text twice; while there are fewer than fifty no candidate is missing, otherwise none left out is better than those shown; then a hint for exactly the arguments awaited whose text no candidate has |
| Completion.MatchIff | src/mcdash/completion.py:325-335 | nothing typed, or a value that starts with it whatever the case and without its `minecraft:`, matches best; next a value with a later word, behind `_`, `.` or `/`, that does; no other matches |
| Completion.Gather | src/mcdash/completion.py:356-371 | collects exactly the candidates at the ends of the walk, and a hint for exactly the arguments the line stops in or that may come next |
| Completion.Distinct | src/mcdash/completion.py:372-377 | drops repeats and the typed text and nothing else, keeping the order |
| Completion.AddHints | src/mcdash/completion.py:379-383 | adds each hint whose text no candidate has, once |
| Completion.CutKeepsBest | src/mcdash/completion.py:378 | what the cut removes is no better than anything it keeps |
| Lines.SplitIsExact | src/mcdash/completion.py:353-355 | splitting at single spaces loses nothing and no piece has a space |
| Collections.SortIsOrdered | src/mcdash/completion.py:374 | the stable sort orders by any total order |
| Collections.StringLeIff | src/mcdash/completion.py:374 | spellings are compared by the first character in which they differ, a beginning coming first |
| Snapshots.SeedRestoresSnapshot | src/mcdash/jobs/seed.py:98-136 | seeding from a snapshot finds the root world and gives exactly the directory's regular files that the mode takes, with their contents |
| Snapshots.TakeSnapshot | src/mcdash/jobs/snapshot.py:20-55 | refuses a directory without a world; otherwise the worklist writes the members of the recursive walk and counts the files |
| Snapshots.ZipFolder | src/mcdash/jobs/snapshot.py:31-49 | one directory's members and the directories to visit, top-level exclusions applied |
| Snapshots.TreeSaysTrue | src/mcdash/jobs/snapshot.py:31-49 | every file member is a regular file of the tree with its content |
| Snapshots.TreeIsComplete | src/mcdash/jobs/snapshot.py:31-49 | every regular file not left out has its member |
| Snapshots.Volume.Seed | src/mcdash/jobs/seed.py:98-154 | without a world the volume is untouched; otherwise it holds what was extracted and the marker, counted, or an error if no level.dat came out; which files those are is SeedContents.SeededFilesAre |
| Snapshots.WrittenCounts | src/mcdash/jobs/seed.py:113-135 | the number that is reported is that of the members extracted as files |
| SeedContents.SeededFilesAre | src/mcdash/jobs/seed.py:113-135 | of a zip with plain member names a seed leaves exactly: the regular members of the world; of the rest in full mode those whose first name is none that is made again, and otherwise ops.json, whitelist.json and banned-*.json at the root |
| SeedContents.FullSeedLeavesNothingMadeAgain | src/mcdash/jobs/seed.py:22-34 | after a full seed no path begins with libraries, versions, logs, .cache, ? or the seed's marker, with a name that ends in .tmp, or with .forge, .fabric, .neoforge or .install and a dash, underscore or dot |
| SeedContents.VanillaSeedLeavesWorldAndLists | src/mcdash/jobs/seed.py:71-72 | after a vanilla seed there is the world and there are the lists of players, nothing else |
| SeedContents.SnapshotTakes | src/mcdash/jobs/snapshot.py:31-49 | a snapshot has a member for exactly the regular files whose first name is none that is made again |
| SeedContents.NothingMadeAgainIff | src/mcdash/jobs/seed.py:59-76 | a full seed of any zip leaves nothing that is made again if and only if no member slips through, and only one whose name begins with a dot component or a backslashed name can |
| SeedContents.DottedNameSlipsThrough | src/mcdash/jobs/seed.py:73-75 | a zip from which a full seed brings libraries/x.jar |
| Snapshots.SafePathOfJoin | src/mcdash/jobs/seed.py:45-56 | a path of plain names comes back from its text unless it looks like a drive |
| Snapshots.PlacedWhereItWas | src/mcdash/jobs/seed.py:59-76 | a snapshot's member goes back where it came from, or nowhere if the mode does not take it |
| SeedJob.RootWorldIsFound | src/mcdash/detect.py:79-103 | a zip with a world directory at its root is always taken at the root |
| SeedJob.NestedWorldIsFoundIff | src/mcdash/detect.py:79-103 | a world zipped with the directories around it is found there if and only if those do not end in a directory that is taken for a world itself |
| SeedJob.LeastIsFirst | src/mcdash/detect.py:96-102 | the world taken is the shallowest, and of those the first in the alphabet |
| WorldSearch.LocatedIsNearest | src/mcdash/detect.py:79-103 | over every zip: a world is found exactly where a level.dat counts; it is a server's if there is one, and of those the one with the fewest directories around it, then the first in the alphabet; the data begins where `world` does, or else one directory above the world |
| SeedJob.MapNested | src/mcdash/jobs/seed.py:59-76 | members are mapped the same however deep the data lies in the zip |
| Snapshots.NestedSnapshotRestores | src/mcdash/jobs/seed.py:107-115 | a snapshot zipped again inside other directories seeds the same files in either mode |
| Snapshots.ExtractedNested | src/mcdash/jobs/seed.py:113-135 | extraction leaves the same files for a zip and for the same zip some directories deeper |
| SeedJob.FindWorld | src/mcdash/detect.py:79-103 | the loop finds the shallowest, alphabetically first world, server layout before others |
| SeedJob.MembersNeverCollide | src/mcdash/jobs/seed.py:59-76 | no two members of a zip go to one path, in either mode |
| SeedJob.UnguardedCollidesIff | src/mcdash/jobs/seed.py:59-76 | without the guard two members go to one place if and only if one lies in a stray world directory where the other lies in the world; the guard leaves out that one |
| SeedJob.GuardIsNeeded | src/mcdash/jobs/seed.py:69-70 | a zip whose world is found in s/m/ and in which a file of s/world/ would otherwise replace one of the world |
| BackupNames.PromotedNameRoundTrip | src/mcdash/naming.py:71-98 | a promoted file's name gives back the world and second it was built from, for every counter |
| BackupNames.SnapshotNameRoundTrip | src/mcdash/naming.py:71-98 | a snapshot's path gives back its world and stamp |
| BackupNames.CompactRoundTrip | src/mcdash/naming.py:54-68 | a compact stamp is read back |
| BackupNames.DatedRoundTrip | src/mcdash/naming.py:87-98 | a dated stem is read back |
| BackupNames.TimedFormIsRead | src/mcdash/naming.py:25-31 | a day and a time are read whatever separators stand in and behind them, with the century or without, and so is the world behind them |
| BackupNames.DayFormIsRead | src/mcdash/naming.py:25-31 | a day alone is read as its midnight, unless what follows could be taken for a time |
| BackupNames.CounterIsDropped | src/mcdash/naming.py:36-38 | a final counter goes, with the white space in front of it, and what is left is treated the same |
| BackupNames.UndatedNameIsKept | src/mcdash/naming.py:77-98 | a name that does not begin with two digits is the world itself, without the counter of a copy, and the time is the file's own |
| BackupNames.NamesLookLikeThis | src/mcdash/naming.py:67-68 | 20261011T120000Z and 2026-10-11_12_00_00-noah |
| BackupNames.FreePromotedName | src/mcdash/backups.py:233-238 | the loop ends on the first free name within one try more than there are files |
| BackupNames.NamesDiffer | src/mcdash/backups.py:233-238 | different counters give different names |
| Backups.CacheIsTransparentIff | src/mcdash/backups.py:93-156 | after any history of scans, looks and failed saves, if id, size and time determine the content, a scan finds what one without a cache finds if and only if each entry of a file with a world stands for a failed read exactly when it cannot be read now; so always if reads of one version of a file agree |
| Backups.SecondReadIsSeenIff | src/mcdash/backups.py:102-125 | after one read of a file a second is taken note of if and only if both failed or neither did, or there is no world in it |
| Backups.SavedIndexIsExact | src/mcdash/backups.py:151-154 | a saved index has for every file there is an entry of its size, time and version 2 of the inspection, and none for a file that is gone |
| Backups.OldEntryIsReplaced | src/mcdash/backups.py:102-125 | an entry of another size, time or version is not used: the file is inspected again and remembered anew |
| Backups.DetectionRoundTrip | src/mcdash/detect.py:49-68 | a detection survives its JSON form |
| Backups.BackupIndex.ScanFiles | src/mcdash/backups.py:134-156 | the loop lists and remembers as specified, changing nothing where it raises an error |
| Backups.BackupIndex.Look | src/mcdash/backups.py:93-125 | one file's detection, remembered if it was not |
| Backups.BackupIndex.Prune | src/mcdash/backups.py:272-279 | removes exactly the doomed snapshots' files and returns their ids |
| Backups.BackupIndex.Delete | src/mcdash/backups.py:261-270 | refuses the archive tier and missing files, otherwise removes that file only |
| Backups.PromotionKeepsWorldAndTime | src/mcdash/backups.py:158-191 | a scan finds a snapshot under the world whose directory it is in and the second of its name, and a copy of it in the promoted tier likewise, whatever its counter, unless its sidecar names another world |
| Backups.PruneSparesNewest | src/mcdash/backups.py:272-279 | splits the world's snapshots, spares min(keep, n), none older than any that goes |
| Backups.PruneStaysInItsWorld | src/mcdash/backups.py:203-208 | only listed snapshots in the world's own directory go, each of those goes or is spared, and none spared has an earlier stamp, read as fourteen digits, than one that goes |
| Backups.PruneTouchesNothingElse | src/mcdash/backups.py:203-208 | afterwards exactly the doomed snapshots are no longer found |
| Naming.SanitizeYieldsSlug | src/mcdash/naming.py:101-110 | every text gives a label of at most 40 characters without double dashes |
| Naming.SanitizeIsIdempotent | src/mcdash/naming.py:101-110 | sanitising twice changes nothing more |
| NamingWords.PlacesAre | src/mcdash/naming.py:103 | the places meant are those of all letters and digits, in ascending order |
| NamingLetters.SanitizeSpells | src/mcdash/naming.py:101-110 | a name is the letters and digits of the raw text, capitals as small letters, with one dash between two exactly where something else stands between them, `w-` in front of a digit and `world` if there are none; cut at 40 characters, and a dash at the cut goes too |
| NamingLetters.SanitizeKeepsLetters | src/mcdash/naming.py:101-110 | apart from that `w` the letters and digits of a name are the first of the raw text's, in order, and all of them if the name is shorter than 39 characters |
| NamingLetters.CandidateKeepsBase | src/mcdash/naming.py:121-129 | a numbered name begins with the base if both fit, and otherwise with as much of it as fits, but for a dash at the cut |
| Naming.ValidNameIsLabelIff | src/mcdash/naming.py:113-114 | a name is accepted if and only if it has at most 40 characters and is a label of section 2.3.1 of RFC 1035, or one followed by a newline |
| Naming.NewlineSlipsThrough | src/mcdash/naming.py:34 | a name with a newline that is accepted |
| Naming.UniqueName | src/mcdash/naming.py:117-129 | the sanitised base if that is free, else its first free numbered candidate, within one more than there are names taken; a label below 10^37 names; what is kept of the raw text is NamingLetters.SanitizeSpells |
| Naming.CandidatesDiffer | src/mcdash/naming.py:121-129 | different numbers give different candidates although the base is cut |
| Naming.CandidateIsLabel | src/mcdash/naming.py:121-129 | a numbered candidate is a label of at most 40 characters |

## Left out

- The web interface, the Kubernetes client, running Helm, sockets and TLS, logs,
  metrics, time-to-live caches, labels, roster, audit trail and the archive guard.
- The commands Job that fills the completion data; it only reads a volume.
- `save-off` and `save-on` around a snapshot: they change no record, and a failed
  flush may leave saving off.
- Helm values other than replicas, ports, source, Forge version, settings, whitelist and ops.
- Argument patterns: which words an argument accepts and which values it offers are
  parameters of the walk; the text of a hint is its argument's name.
- Reading NBT data, `server.properties` and jar names: inspecting a zip is a parameter.
- The order backups are listed in, and labels from sidecar files, which a scan only passes on;
  the world that a sidecar names is a parameter.
- Fractions of a second in file times, years before 1000 in file names.
- Letters, digits and white space beyond ASCII in `Naming`, `BackupNames` and
  `SeedJob`; in `Players` and `Completion` lower case is an arbitrary function, of
  which one direction of `OfferedLiteralIsReached` asks that it keeps lengths and
  makes no spaces.
- UTF-8: packet bodies are bytes, and a command's length in bytes is a parameter.
- How a connection is opened and judged alive: both are outcomes chosen by the environment.
- Two threads inside `WorldService`: the service holds one lock over each call, so
  its interleaving with the cluster and with crashes is modelled, not with itself.
- Empty directories, ownership and modes of files, a file where a directory is to
  be, a symbolic link in place of `world/level.dat`, and files that vanish while
  they are zipped.
- A whitelist of an open world: it lets nobody in or out, and `Players.InForce` says
  nothing about it.
- Whether a seed Job is told to run in full or in vanilla mode: `SeedContents` covers both, the
  life cycle does not say which.
- Worlds older than RCON ports occur in `Ports` only; port ranges start above zero.
- SeededFilesAre: asks for plain member names behind the prefix; what other names can do is NothingMadeAgainIff.
- MembersNeverCollide: speaks of paths before normalisation, so `a//b` and `a/b` count as two.
- ReachableStateIsResumable: needs a retention of at least one, see SnapshotKeepsItsPlaceIff.
