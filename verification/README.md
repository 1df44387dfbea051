# A model of the InstaCloud OSS daemon's concurrency and crash-safety core

InstaCloud OSS runs a small serverless platform on one box: branches of projects, each with postgres,
storage, managed databases and compute containers. This project models the parts of the daemon whose
correctness rests on interleavings, crash points or index arithmetic, and proves what they promise.

| module | what it models |
|---|---|
| `OpLock`, `OpContexts`, `Redrive`, `RedriveKeys`, `RedriveWitnesses` | the multi-key operation lock of the scheduler, the contexts that take it, and the engine's "recompute under the lock, release, acquire the union" loops as contexts among the others, over the rows their keys and names are looked up in |
| `Wake`, `WakeStarts` | wakes of one service against lifecycle operations on the same key |
| `Eviction`, `EvictionOrder`, `Snapshot`, `SnapshotFacts` | the memory-pressure pass, and the dated container snapshot it judges by |
| `Migration`, `MigrationEffects`, `ManagedIds` | the boot migration of docker volumes to bind mounts, with a crash possible at every step, and the ids its directories are named after |
| `Teardown`, `RenameSaga` | branch and project deletes, and multi-branch renames, against a docker that may refuse, do it all the same, or not answer |
| `Claims`, `ClaimEffects`, `ClaimRuns`, `ClaimPorts`, `ClaimNames`, `ClaimWitnesses` | exclusive claims on branch refs, what stands under the root of each, and claims on branch names and on the one loopback port space |
| `SqlMask`, `SqlMaskTheorems`, `SqlMaskGrammar` | the SQL masking lexer, the cut made by its mask, and a grammar of the text it reads |
| `Metrics`, `MetricsAnswers`, `MetricsTheorems` | the flat-array metrics store |
| `GitSlots`, `GitQueue`, `GitQueueGate`, `GitQueueRuns` | the build semaphore and the per-binding build queue |
| `DeviceCodes`, `DeviceCodeFates`, `DeviceCodeRuns` | the device-authorization codes (sections 3.4 and 3.5 of RFC 8628) |

The code updates its state in place, so most of it is here as classes and loops, each method tied to a
specification function of the old state; the theorems are lemmas about those functions and about runs of
them. A run is a sequence of events with the sequence of states it goes through, and an event is what the
daemon does between two awaits. Docker, the adapters, the clock and random draws are the environment: they
may succeed, refuse, fail after having done the work, or not answer. What docker does answer is taken to be
so, and an adapter that reports success is taken to have done the work.

## Where the code falls short

Each of these is proved, with the condition under which the code does meet the property.

- Masking twice is masking once, except exactly on texts that break off inside an escape string right
  after an escaped backslash (`E'\\`): `MaskIdempotent`, `NotAlwaysIdempotent`.
- Builds are not bounded by the two slots. A woken build decrements without looking again, so a build
  that asks in between makes three, and the overshoot lasts while builds queue. The bound holds exactly
  when no woken build that is to start finds its slot taken: `TwoAtATime`, `ThreeAtOnce`, `OvershootLasts`.
- Ports the engine picks can coincide. When a group is deployed over from another branch the candidates
  are listed with a look at app rows only and tried without a reservation, so two creates in two projects
  can record one port, and a lane can be handed a port that is being tried. And a deploy that named a port
  gives up whatever reservation stands on it when it ends, so the next pick can be handed it again. All
  claims hold throughout exactly when no pick meets a port that is held and no deploy gives up another's:
  `ExactlyWhenNothingClashes`, `OnlyCandidatesMeet`, `OnlyNamedPortsSteal`; the runs are `ClonesCoincide`,
  `LaneMeetsCandidate` and `StolenPortIsHandedOutAgain`.
- A rename of a branch looks at rows only, so it can take the name a branch is just being created under, and
  the project ends with two branches of one name. Names are unique throughout exactly when no rename does
  that: `NamesAreUnique`, `TwoBranchesOneName`.
- A create redeploys what it carries under the branch name it was asked for (src/engine.ts:834-836, 1046), and
  a rename of a branch takes no lock. When the clone has been renamed and another branch called by its name,
  the next redeploy comes out at that branch and asks for its key while the create owns its own. With a service
  rename or a project delete queued behind the create, neither ever goes on. Everything an operation asks for
  in its body is owned already exactly when no create's redeploy comes out at a branch that is neither its clone
  nor its source, and then nothing blocks for good: `ReentryNeedsNothing`,
  `MisledWhileNameIsTaken`, `RunsAreDisciplined`, `RedrivesNeverStick`, `MisledCreateBlocks`. A volume removal redeploys by names it read, too, and is never
  misled.
- An add looks its branch up by name twice, for its key and in its body (src/engine.ts:3962-3968, 2367), so it
  can come out on a branch whose key it did not ask for. Operations that re-drive hold every key they need
  throughout their bodies exactly when no add comes out on a branch that one of them needs whole and whose key
  for that service it does not hold: `BodiesHoldWhatTheyNeed`, `KeylessAddOvertakes`.
- A rollback swallows the failure to remove the create's root, and gives the ref back all the same
  (src/engine.ts:557). The next create of that name finds those bytes under its root. What stands under a root is
  what the one that has the ref put there, throughout a run, exactly when no rollback of a create that wrote
  leaves its root; committed branches are safe in any case: `RootsStayOwned`, `CommittedRootsAreSafe`,
  `StaleRootIsFound`.
- `forget` drops a key's entry from the wake map. If a wake is queued at that moment the next caller
  queues a second one. The map tracks the one outstanding wake exactly when that never happens:
  `TrackedUnlessForgotten`, `ForgottenWakeIsDoubled`.
- Drawing a device code that is live leaves the old user code behind in `byUser`. The two maps are inverse
  throughout a run exactly when that never happens: `AlwaysInverse`.
- A docker volume kept because neither copy can be shown to be newer is removed by the next boot, if that
  boot comes before the branch is stamped: `VolumeBytesSurvive`, `KeptVolumeIsRemovedNextBoot`. And a
  finished postgres copy is trusted whatever the source did since: `PgBytesSurvive`.
- An app is not stopped for the copy of its volume, so what it writes between the copy and its redeploy goes
  with the volume, on a boot that nothing interrupts. The bytes survive exactly when it writes nothing
  different then: `LiveVolume.Migrate`, `LateWriteIsLost`.
- When a docker rename reports a failure it may have happened all the same. What a failed rename names as
  stuck is what still carries its new name exactly when no rename that reported a failure happened:
  `StuckIsExact`. The message can say that nothing was renamed over a container that was, and name one as
  stuck that was moved back: `SilentlyRenamed`, `StuckThoughBack`. A re-run still completes (`Resumable`),
  with a docker that answers exactly when no carrier has both its names taken; a deploy under the old name of a
  container that was silently renamed takes them, and then no re-run ever completes (`HealthyCompletes`).
- A delete after such a rename finds the name in the row gone, takes the data from under the container that
  lives on under the other name, and drops the row. No bytes go from under a container exactly when none that
  the row does not name has its directories mounted: `DestroyBranch`, `RenamedContainerIsTorn`.
- Removing a branch's apps removes every container whose name contains `io-<ref>-app-`
  (src/adapters/compute.ts:62-70), so a branch whose ref goes on from another's with `-app-` loses all it
  runs when the other is deleted. With a docker that does what it is asked, a delete leaves what the row does
  not name exactly when nothing else is listed under its ref, and that suffices with any docker:
  `OthersSurvive`, `SiblingLosesItsDatabase`.
- An older container listing that answers late brings back names a newer one had found gone. It changes
  nothing else, and nothing at all exactly when it lists no such name: `LateAnswer`.
- The eviction pass has one exit its comment does not list: it ends as failed exactly when a stop throws
  (`PassIsSound`).
- The sorting of keys before an acquisition carries no weight, because all chains are extended in one
  synchronous stretch (`KeyOrderIrrelevant`). What deadlock freedom rests on is that nobody blocks on keys
  while owning some (`NeverStuck`); without that two contexts can block each other for good
  (`NestedAcquisitionCanDeadlock`).
- The comment on the user-code alphabet says `L` is left out; the code has it, and so has the model.

## Model

| member | source | states |
|---|---|---|
| `OpLock.OperationLock.Enqueue` | src/scheduler.ts:353-366 | one synchronous stretch extends the chain of every named key by the new ticket, which then waits for exactly what those chains held |
| `OpLock.OperationLock.Start` | src/scheduler.ts:270-273 | a ticket whose waits have all been released runs, and nothing else changes |
| `OpLock.OperationLock.Finish` | src/scheduler.ts:274-277 | releasing a ticket lowers the count of each of its keys by one and drops the entries that reach 0, and only those |
| `OpLock.OperationLock.ReleaseKey` | src/scheduler.ts:368-373 | one key's count goes down by one, and its entry goes at 0 |
| `OpLock.OperationLock.WithOp` | src/scheduler.ts:264-279 | keys the context owns are skipped, the rest taken once each in one ticket; with none left no ticket is taken at all |
| `OpLock.OperationLock.TryWithOp` | src/scheduler.ts:283-288 | refused without any effect exactly when some key it needs has a count, otherwise as `WithOp` |
| `OpLock.Need` | src/scheduler.ts:265-266 | an acquisition names each key it lacks exactly once and no key it owns |
| `OpLock.ReachableInv` | src/scheduler.ts:264-279 | in every reachable state counts are the unreleased tickets, entries stand exactly while there are some, and every earlier unreleased ticket on a shared key is waited for |
| `OpLock.MutualExclusionInOrder` | src/scheduler.ts:264-279 | over every run at most one ticket runs per key, bodies on a key run in the order they were enqueued, and the count is the number of unreleased tickets, so dropping an entry at 0 lets nobody be overtaken |
| `OpLock.HeldUpBySharersOnly` | src/scheduler.ts:353-366 | a ticket can start exactly when every earlier ticket sharing a key with it has been released |
| `OpLock.TryNeverWaits` | src/scheduler.ts:281-288 | an acquisition `tryWithOp` lets through can start at once |
| `OpLock.KeyOrderIrrelevant` | src/scheduler.ts:259-266 | the order in which keys are listed changes neither the chains nor what is waited for |
| `OpContexts.ReachableSysInv` | src/scheduler.ts:264-288 | what owners, nested acquisitions and the provision chain keep over every disciplined run |
| `OpContexts.OneOwnerPerKey` | src/scheduler.ts:264-279 | two contexts never own a key at the same time, whatever is nested in them |
| `OpContexts.NeverStuck` | src/engine.ts:327-338 | deadlock freedom: while some context has not ended, in every disciplined run, some context can take a step towards its end |
| `OpContexts.NestedAcquisitionCanDeadlock` | src/scheduler.ts:259-263 | without the discipline a reachable state exists in which nobody can ever go on |
| `Redrive.Drive` | src/engine.ts:729-749 | the body runs in the first round whose recomputed keys are all held, and in no other; after three rounds that outgrow theirs it has not run at all |
| `Redrive.BodiesHoldWhatTheyNeed` | src/engine.ts:712-749 | over every interleaving, an operation in its body holds every key it needs as the rows stand at that moment, whatever others add, remove and rename under their keys or none, exactly when no add comes out on a branch that one in its body needs whole without the key of that service |
| `Redrive.StepKeepsBodies` | src/engine.ts:3962-3968 | the same for each step |
| `RedriveKeys.KeysAre` | src/engine.ts:4126-4132 | what an operation needs is exactly the keys it names, spelled out for each operation over the rows |
| `RedriveKeys.NobodyElseOwns` | src/engine.ts:712-749 | while an operation is in its body it owns each of those keys and no other context does, in every state of every run in which no add overtakes one |
| `Redrive.ReentryNeedsNothing` | src/engine.ts:701-705 | what an operation asks for inside its body it owns already, exactly when it is not a create whose redeploy came out at a branch that is neither its clone nor its source |
| `Redrive.RedeployOk` | src/engine.ts:1043-1052 | the same for a redeploy by name; one of a volume removal always asks for keys that are owned |
| `Redrive.MisledWhileNameIsTaken` | src/engine.ts:1020-1046 | a create that goes on to redeploy can come out there exactly while another branch than its clone and its source has the name it was asked for |
| `Redrive.RunsAreDisciplined` | src/engine.ts:4108-4123 | every step on the lock keeps the discipline deadlock freedom rests on, throughout a run, exactly when no create is misled |
| `Redrive.DriversAreDisciplined` | src/engine.ts:2618-2634 | the same for each step |
| `Redrive.RedrivesNeverStick` | src/engine.ts:3091-3141 | then no re-drive and nothing beside it blocks for good: while some context has not ended, one can take a step of this world towards its end |
| `Redrive.AbandonedRoundsLeaveNoTrace` | src/engine.ts:4099-4106 | before every acquisition, and after a third round that outgrew its keys, the operation owns nothing and has changed no row, and there is no fourth round |
| `RedriveWitnesses.MisledCreateBlocks` | src/engine.ts:834-836 | a reachable state from which, in every continuation, a create in its redeploys and a service rename wait for each other |
| `RedriveWitnesses.NeitherGoesOn` | src/scheduler.ts:264-279 | two contexts that wait so are never let go on by any step of anybody |
| `RedriveWitnesses.KeylessAddOvertakes` | src/engine.ts:3962-3968 | a reachable state in which a delete in its body needs a key that it does not hold and anybody can have at once |
| `Redrive.ForeignEditStays` | src/engine.ts:712-728 | while one context holds all an operation needs, no change another makes under its keys, or under none as a rename of a branch, makes it need more |
| `Redrive.SettlesOnceStable` | src/engine.ts:3091-3141 | the operation runs as soon as one round asks for nothing an earlier one had not asked for |
| `Wake.Scheduler.Wake` | src/scheduler.ts:789-815 | a call from outside joins the wake in the map or queues one and puts it there, and is refused when traffic asks for what is not wanted running |
| `Wake.Scheduler.WakeInside` | src/scheduler.ts:793-805 | a call under the key's own lock runs at once whatever is queued, and enters the map only when that is free |
| `Wake.Scheduler.BeginBody` | src/scheduler.ts:839-843 | the body checks target and intent again under the lock, and ends there when they no longer hold |
| `Wake.Scheduler.StartContainer` | src/scheduler.ts:860-880 | once room was made the container is started, once, and recorded with its door and the intent at that instant |
| `Wake.Scheduler.Settle` | src/scheduler.ts:800-812 | a queued wake's end empties the map whatever it holds, an inner one's only takes out itself |
| `WakeStarts.OutsideCallsAreHeard` | src/scheduler.ts:789-815 | a call from outside that is allowed leaves a wake in the map, the one that was there or a new one at the back of the queue; one that is not leaves everything as it was |
| `WakeStarts.InsideCallsAreHeard` | src/scheduler.ts:793-805 | a call from inside that is allowed always makes a wake of its own, and disturbs nothing queued |
| `WakeStarts.CheckedAgain` | src/scheduler.ts:838-843 | under the lock a wake goes on exactly when the container is there and traffic still finds it wanted, and is over otherwise |
| `WakeStarts.StartsAreThoseAskedFor` | src/scheduler.ts:873-880 | over every run the containers started are those the wakes went on to start, in their order, whatever became of the wakes since |
| `WakeStarts.StartedExactlyOnce` | src/scheduler.ts:873-880 | in every state of every run no wake has started twice, and a wake, queued or inside another operation, that is past its start is among the starts with its own door |
| `WakeStarts.NoStartUnearned` | src/scheduler.ts:838-880 | a wake starts the container only after it was found allowed under the lock and room was then made for it |
| `WakeStarts.TheMapIsCurrent` | src/scheduler.ts:800-812 | no caller ever joins a wake that is gone |
| `Wake.TrafficStartsOnlyWanted` | src/scheduler.ts:833-880 | in every interleaving bodies on a key never overlap, a container is started through the traffic door only while the developer wants it running, and none is started before room was made for it |
| `Wake.TrackedUnlessForgotten` | src/scheduler.ts:173-180 | the map tracks the one outstanding wake in every state exactly when the key is never forgotten while there is one |
| `Wake.CallersShareOneWake` | src/scheduler.ts:806-814 | while it does, every caller from outside joins that wake and there are never two |
| `Wake.ForgottenWakeIsDoubled` | src/scheduler.ts:173-180 | a reachable state in which a key that was forgotten while a wake was queued has two wakes queued |
| `Wake.NeverAwaitsAQueuedWake` | src/scheduler.ts:793-797 | in every state of every run, what an operation on the key waits for is never a queued wake |
| `Wake.EverythingDrains` | src/scheduler.ts:793-797 | from every state of every run every operation on the key can run to its end |
| `Wake.JoiningBlocksForEver` | src/scheduler.ts:795-797 | were a wake from inside to join the one in the map, a reachable state is blocked and every run from it stays so |
| `Eviction.EvictForRoom` | src/scheduler.ts:669-739 | the pass does turn by turn what its specification says, for every sequence of views of memory, targets, ledger and outcomes; `EvictionOrder` says what that comes to |
| `Eviction.DecideTurn` | src/scheduler.ts:696-728 | one turn leaves for the reason there is; otherwise it names the head of the stable sort of the victims, which `EvictionOrder.TheIdlestGoes` says is the one idle longest, biggest among those and listed first among those |
| `Eviction.RightDecision` | src/scheduler.ts:696-728 | exactly one decision is right at each turn, and the pass takes it |
| `Eviction.PassIsSound` | src/scheduler.ts:669-751 | no service is tried twice; each one met every hard guard at its own turn and none eligible comes before it; nothing is tried once the pass's own accounting meets the floor; the exit names its reason, and is a failure exactly when a stop threw |
| `EvictionOrder.TheIdlestGoes` | src/scheduler.ts:695-751 | over the ledger, the state cache and the memory readings: each service tried was observed running recently, is not excluded, tried, always-on, busy or held, is wanted running, has been quiet for twice the touch debounce and is past its wake protection; no other such service was active earlier, or as early and bigger, or as early and as big and listed before it; and memory was short |
| `EvictionOrder.WhyItEnds` | src/scheduler.ts:673-723 | the pass ends with the floor met exactly when a reading or its own accounting reaches it, and with no victim exactly when memory is short and no service meets those guards |
| `Eviction.FirstVictim` | src/scheduler.ts:724-728 | the head of the stable sort is a victim none comes before, and the first such in the list |
| `Eviction.CeilingIsUnreachable` | src/scheduler.ts:683-695 | with fewer distinct keys than the ceiling, over the whole pass, the pass never gives up and tries at most that many |
| `Eviction.StillPassFollowsTheOrder` | src/scheduler.ts:695-733 | while only memory and outcomes vary, the pass works down one fixed order of victims and, if it misses the floor, has tried them all |
| `Snapshot.StateSnapshot.Absorb` | src/scheduler.ts:328-337 | the two loops compute the fold: listed entries dated by the issue of the read unless something newer is known, unlisted ones gone unless newer |
| `Snapshot.StateSnapshot.SetCached` | src/scheduler.ts:226-230 | one entry is stamped now and keeps its id; nothing else changes |
| `Snapshot.StateSnapshot.Sleep` | src/scheduler.ts:612-653 | asleep only when the stop of a running container worked or a clone was never started; a stop that failed leaves no entry, and whatever the answer the service is not observed running afterwards |
| `Snapshot.StateSnapshot.Overlay` | src/scheduler.ts:329-333 | the first loop of the fold: what is listed, unless something newer is known |
| `Snapshot.StateSnapshot.ForgetGone` | src/scheduler.ts:334-334 | the second: what is not listed goes, unless something newer is known |
| `Snapshot.FoldIsDated` | src/scheduler.ts:324-337 | after a fold nothing is dated before it, what is dated by it is the listing's, newer entries are untouched and none that survives goes back |
| `Snapshot.LaterReadWins` | src/scheduler.ts:313-337 | two reads answered in order leave what the later alone leaves |
| `Snapshot.LateAnswer` | src/scheduler.ts:324-337 | an older read answered late only adds, dated as old as it is, names the newer one found gone; order is immaterial exactly when there is none |
| `SnapshotFacts.BeliefStands` | src/scheduler.ts:313-337 | over every run, what is believed of a container was given by some read or record, dated by the issue of the read or the instant of the record, and nothing since put an end to it |
| `SnapshotFacts.BeliefStays` | src/scheduler.ts:226-230 | a fact stays believed, with its date, until a newer record or a drop of the container or a read issued no earlier |
| `SnapshotFacts.WhatWasSeenIsBelieved` | src/scheduler.ts:226-230 | what a caller saw happen is believed at once and never undone by a read issued before it; a container seen to run is observed running exactly until the fact reaches the permitted age |
| `SnapshotFacts.WhatWasListedIsBelieved` | src/scheduler.ts:324-333 | the same of what a read lists, when nothing newer is known |
| `SnapshotFacts.WhichOneIsAsListed` | src/scheduler.ts:226-230 | which container goes by a name stays what the read said that listed it, whatever callers record of it since, until a read issued no earlier or a drop |
| `SnapshotFacts.WhatIsNotListedIsForgotten` | src/scheduler.ts:334-334 | a container that a read does not list is forgotten exactly when nothing newer than the read is known of it |
| `Snapshot.ObservedRunningIsRecent` | src/scheduler.ts:428-449 | over every interleaving of slow reads and single facts, a container observed running really ran at an instant less than the permitted age ago |
| `Snapshot.DatingByAnswerWouldMislead` | src/scheduler.ts:319-322 | dating a read by its answer would have a container observed running that had stopped a minute before |
| `Migration.Branch.CopyIntoPlace` | src/datadir-migrate.ts:263-279 | a destination is whole only when the copy that filled it finished, and every moment of the way keeps some whole copy |
| `Migration.Branch.Stage` | src/datadir-migrate.ts:271-275 | a staged copy is the source's bytes, or the step fails, and nothing whole is lost meanwhile |
| `Migration.Branch.Promote` | src/datadir-migrate.ts:276-278 | the finished copy replaces the destination with some whole copy kept throughout |
| `Migration.Branch.StopLegacy` | src/datadir-migrate.ts:204-214 | done only when the container was seen at rest |
| `Migration.Branch.RemoveLegacy` | src/datadir-migrate.ts:146-153 | the source goes only beside a whole destination |
| `Migration.Branch.TakeBytes` | src/datadir-migrate.ts:135-162 | ends with the bytes whole at the destination and the intent taken from the container that held it |
| `Migration.Branch.Replace` | src/datadir-migrate.ts:164-173 | ends with a replacement container, running as the old one was when docker answers |
| `Migration.Branch.WriteRow` | src/datadir-migrate.ts:174-185 | the row names the replacement afterwards |
| `Migration.Branch.MigrateVolume` | src/datadir-migrate.ts:286-327 | one volume that is not written meanwhile: whole at its destination afterwards, exactly as its uninterrupted boot would leave it when docker answers |
| `Migration.LiveVolume.Migrate` | src/datadir-migrate.ts:286-327 | one volume whose app runs on: the bytes written last survive exactly when nothing different is written between the copy and the redeploy |
| `Migration.LateWriteIsLost` | src/datadir-migrate.ts:311-325 | the input on which a boot that nothing interrupts loses a write |
| `Migration.Branch.RemoveManaged` | src/datadir-migrate.ts:374-374 | every path of a managed database loses its source at once, only after all were copied |
| `Migration.Branch.MigrateManagedOne` | src/datadir-migrate.ts:336-384 | one managed database: every path whole at its destination afterwards; with a docker that answers and its password stored it comes back on the data directory running exactly when it ran before, or running when its container was gone and the directory lists anything |
| `Migration.Branch.MigrateBranch` | src/datadir-migrate.ts:102-107 | when all three arms come through, every place's bytes are whole at their destination; with a docker that answers and every password stored they do, and each service is left as `Booted` says |
| `Migration.Branch.MigratePostgres` | src/datadir-migrate.ts:111-187 | when it returns, the bytes are whole at the destination under a replacement container; with a docker that answers it does, the replacement runs exactly when the old container ran, and the row no longer names that |
| `Migration.Branch.MigrateVolumes` | src/datadir-migrate.ts:283-329 | when it returns, every volume's bytes are whole at their destination; a copy is not repeated over an app that reads it; with a docker that answers each is as its own uninterrupted boot leaves it |
| `Migration.Branch.MigrateManaged` | src/datadir-migrate.ts:333-386 | when it returns, every path of every managed database is whole at its destination; with a docker that answers and every password stored each is as its own turn leaves it, running as it ran |
| `Migration.Branch.Boot` | src/datadir-migrate.ts:63-82 | the stamp is written only after all three arms came through, never after a probe that could not answer or a step that failed; a stamped branch is left as it is; with every password stored a docker that answers gets it done, with postgres, apps and managed databases left as `Booted` says |
| `MigrationEffects.WhatBecomesOfPostgres` | src/datadir-migrate.ts:111-187 | after an uninterrupted boot: a replacement that runs exactly when the old container ran, on the same bytes, and a row that names it; a replacement that is there stays as it was, and one that is missing beside a finished copy comes back running |
| `MigrationEffects.WhatBecomesOfAVolume` | src/datadir-migrate.ts:283-329 | the volume is copied into place and goes, and the app is on the copy; unless the app already is on one, which is left as it is, or nobody is and something lies at the destination, when the volume is kept |
| `MigrationEffects.WhatBecomesOfAManaged` | src/datadir-migrate.ts:333-386 | a database on its own filesystem comes back on the data directory, running exactly when it ran; one whose container is gone comes back running exactly when its directory lists anything; one that is on the directory already is left alone |
| `Migration.Branch.Boots` | src/datadir-migrate.ts:63-82 | over any number of boots ending at any step, every state the disk went through held every place's bytes whole, and a stamp means all have arrived |
| `Migration.Branch.ComesThrough` | src/datadir-migrate.ts:63-82 | from whatever those boots leave, one that answers throughout finishes with the same bytes, and every boot after it says it did nothing and leaves rows, containers and disk as they were |
| `Migration.PgBytesSurvive` | src/datadir-migrate.ts:135-153 | an uninterrupted boot keeps a postgres source's bytes exactly when the destination does not pass for a finished copy of something else |
| `Migration.PgBootTwice` | src/datadir-migrate.ts:119-128 | a second uninterrupted boot changes nothing |
| `Migration.VolumeBytesSurvive` | src/datadir-migrate.ts:297-325 | one boot never loses a volume's bytes; two boots without a stamp keep them exactly under the stated condition on app and destination |
| `Migration.KeptVolumeIsRemovedNextBoot` | src/datadir-migrate.ts:306-325 | the input on which a kept volume is lost at the second boot |
| `ManagedIds.Install.Backfill` | src/datadir-migrate.ts:93-99 | a registration without an id gets one, and the others keep theirs |
| `ManagedIds.Install.MigrateManaged` | src/datadir-migrate.ts:333-348 | one branch copies each registration of the snapshot under the directory its id names, and passes over those without an id |
| `ManagedIds.Install.Migrate` | src/datadir-migrate.ts:49-82 | with registrations appearing at any moment of a boot, every directory bytes were copied under is the one later derivations name, no two branches share one, a branch copied again uses the same one, and a stamped branch has all that were registered when the boot began |
| `ManagedIds.Install.Boots` | src/datadir-migrate.ts:49-63 | the same over any number of boots that end anywhere |
| `ManagedIds.MintingInTheLoopStrands` | src/datadir-migrate.ts:52-60 | minting inside the branch loop, a branch's bytes are found again exactly when it drew what the last branch drew |
| `Teardown.RemoveContainer` | src/engine.ts:198-225 | true only when docker answered that the container is gone; every other answer counts one failure, and what was there and went counts as destroyed once |
| `Teardown.RemoveNetwork` | src/engine.ts:167-185 | without a counted failure the network is gone: absence is never inferred from a probe that failed |
| `Teardown.RemoveAll` | src/engine.ts:2932-2954 | every container of one kind is gone or among the survivors, and each survivor is one failure; with a docker that does what it is asked, exactly those that stood are counted as destroyed |
| `Teardown.RemoveApps` | src/engine.ts:2914-2922 | the first removal takes whatever is listed for the ref, and each app is proved gone on its own; with a docker that does what it is asked, exactly those that stood are counted |
| `Teardown.RemoveBuckets` | src/engine.ts:2937-2940 | without a new failure every bucket is gone; with a docker that does what it is asked there is none, and each is counted |
| `Teardown.RemoveDirs` | src/engine.ts:2965-2967 | what is torn is exactly the live containers with one of the directories mounted, and without a new failure the directories are all gone; with a docker that does what it is asked each counts as destroyed |
| `Teardown.Engine.TeardownBranch` | src/engine.ts:2901-3010 | while one of the row's containers is left its directories are untouched; once they go, what is torn is exactly what else has them mounted; the containers taken down are the row's and those listed under its ref; without a new failure nothing the row named is left and its keys, hostnames and secrets are released, with one all of them stay; a docker that answers gets it done, and what is counted is exactly what stood |
| `Teardown.Engine.DestroyBranch` | src/engine.ts:3014-3065 | the row goes exactly when its demolition all went and is kept as `cleanup-failed` otherwise; nothing the rows ever named is orphaned; bytes go from under no container exactly when none that the row does not name has its directories mounted; with a docker that does what it is asked, nothing the row does not name is taken down exactly when nothing else is listed under its ref, and what is counted as destroyed is exactly what stood of the branch |
| `Teardown.OwnMountsAreSafe` | src/engine.ts:2956-2968 | with every branch's bytes mounted by its own containers alone, no delete takes bytes from under a container |
| `Teardown.RenamedContainerIsTorn` | src/engine.ts:2951-2954 | a delete after a failed rename of a managed database that drops the row and takes the data from under the container |
| `Teardown.OthersSurvive` | src/adapters/compute.ts:62-70 | a delete leaves every container the row does not name if nothing else is listed under its ref; with a docker that does what it is asked, only if |
| `Teardown.SiblingLosesItsDatabase` | src/adapters/compute.ts:62-70 | a delete that takes down the database of another branch, whose row stays |
| `Teardown.Engine.DestroyOne` | src/engine.ts:3104-3124 | on a counter shared over branches, a branch is decided by its own share of the failures |
| `Teardown.Engine.DestroyAll` | src/engine.ts:3101-3124 | the branches dropped are those whose own demolition all went, and a branch is kept exactly when the counter shows a failure; of what no branch names, nothing is taken down that is not listed under one of their refs, and with a docker that does what it is asked everything that is, every branch is dropped and the count is the sum of what stood of each |
| `Teardown.Engine.DestroyProject` | src/engine.ts:3074-3141 | rows, keys, hostnames, bindings and secrets go together branch by branch, the project row outlives every kept branch row, and the count of failures is 0 exactly when none is kept; with a docker that does what it is asked none is, and what is counted as destroyed is the sum of what stood of each branch |
| `Teardown.DropAgrees` | src/engine.ts:2981-3009 | a dropped branch takes its own claims and no others with it |
| `Teardown.DropKeepsClaims` | src/engine.ts:2988-3009 | after a drop no key, hostname, binding or secret of any branch that is gone is left |
| `RenameSaga.Engine.RenameNeeded` | src/engine.ts:4026-4033 | yes when the container has its old name, no when it has not, and a stop when docker cannot answer |
| `RenameSaga.NothingIsGuessed` | src/engine.ts:4026-4033 | whether a rename is needed is answered from what docker said of the old name, and of the new one when the old one is gone; a question it could not answer stops the rename |
| `RenameSaga.OnlyOnAnswers` | src/engine.ts:4035-4050 | an attempt comes through only if docker answered every question and did every rename it was asked for |
| `RenameSaga.Engine.MoveAll` | src/engine.ts:2183-2189 | the loop is the forward pass, for every docker |
| `RenameSaga.Engine.UndoRenames` | src/engine.ts:4051-4061 | the loop is the compensation, newest first, for every docker |
| `RenameSaga.Engine.Rename` | src/engine.ts:2498-2527 | the method is the attempt, for every docker; rows move only when it came through |
| `RenameSaga.LeftExactly` | src/engine.ts:2498-2527 | an attempt moves every carrier that needs it, or exactly the one whose rename was reported as failed and happened and those that did not move back |
| `RenameSaga.CallsExactly` | src/engine.ts:4051-4061 | what is asked of docker: each carrier in order, the one that failed, then those before it back, newest first, the stuck ones being those that reported a failure |
| `RenameSaga.StuckIsExact` | src/engine.ts:4063-4069 | what a failure names as stuck is what still carries its new name exactly when no rename that reported a failure happened |
| `RenameSaga.DeceivingCalls` | src/engine.ts:4051-4061 | the calls of a failed attempt that reported a failure and happened are the one that stopped it, and those back that are named as stuck |
| `RenameSaga.NothingWasRenamed` | src/engine.ts:4066-4066 | the message that nothing was renamed is right exactly when the rename that failed did not happen |
| `RenameSaga.SilentlyRenamed` | src/engine.ts:4066-4066 | a run on which it is wrong |
| `RenameSaga.StuckThoughBack` | src/engine.ts:4067-4067 | a run on which a container is named as stuck that has its old name |
| `RenameSaga.HealthyCompletes` | src/engine.ts:4035-4050 | a docker that answers completes the rename exactly when no carrier has both its names taken, and otherwise leaves everything as it was |
| `RenameSaga.GoalIsKept` | src/engine.ts:4023-4025 | an attempt that moved any subset leaves the goal of the rename where it was |
| `RenameSaga.Resumable` | src/engine.ts:4035-4050 | after any number of failed attempts, the next is asked for the very rename the first was, and can reach it |
| `RenameSaga.RowsMoveTogether` | src/engine.ts:2209-2220 | every carrier's row moves to its own new name and no other row does |
| `Claims.Engine.NextLanePort` | src/engine.ts:3424-3428 | the lowest port of the range that is neither taken nor busy, or none when there is none |
| `Claims.Engine.AllocLanes` | src/engine.ts:3478-3493 | one port a service, each the lowest left, all reserved in one stretch or none |
| `Claims.Engine.ReserveBranchRef` | src/engine.ts:3577-3592 | refused exactly when a row of the project has the name, a row of any project has the ref, or another create has it |
| `Claims.Engine.Reserve` | src/engine.ts:486-490 | a create claims its ref before anything of it exists, or leaves no trace |
| `Claims.Engine.ReserveLanes` | src/engine.ts:527-542 | a create reserves all its lanes, or ends and gives its ref back |
| `Claims.Engine.Abandon` | src/engine.ts:492-511 | a create that ends before it made anything gives its ref back |
| `Claims.Engine.ReleaseBranchRef` | src/engine.ts:3602-3604 | a ref is released only by the create that holds it |
| `Claims.Engine.ReleaseLanes` | src/engine.ts:3497-3503 | exactly the reservations of one branch go |
| `Claims.Engine.LaneFor` | src/engine.ts:3452-3474 | the lane there is, the fallback where none is needed, and otherwise the lowest free port, on the row at once |
| `Claims.Engine.MoveLane` | src/router/index.ts:459-473 | a lane whose port something else listens on gets the lowest free port, and a reservation of the old port goes; nothing changes when there is no port or no row |
| `Claims.Engine.FreeHostPorts` | src/engine.ts:1246-1258 | the loop lists the candidates of the specification |
| `Claims.Engine.ListPorts` | src/engine.ts:1230-1234 | the candidates of a group that is deployed over onto a name are listed once, before the first is tried |
| `Claims.Engine.StartClone` | src/engine.ts:1234-1241 | a candidate is tried on the branch that has the name then, as a port the caller named, with nothing reserved; what is left to try keeps the name |
| `Claims.Engine.RenameBranch` | src/engine.ts:1020-1041 | refused for the default branch and for a name some row has; otherwise the name moves and the ref stays |
| `Claims.Engine.RenameGroup` | src/engine.ts:2209-2220 | the rows of every branch of the project that carries the group move to its new name with their ports, unless that is taken |
| `Claims.Engine.Commit` | src/engine.ts:631-639 | the row takes over the ref and the lanes, and the reservations it supersedes go |
| `Claims.Engine.Rollback` | src/engine.ts:547-562 | the root goes only while this create holds the ref and unless its removal fails, and its reservations go either way |
| `Claims.Engine.LocalHostPort` | src/engine.ts:3690-3714 | a named port or the row's own is taken as it is, another comes out of the range and is reserved as it is picked |
| `Claims.Engine.EndDeploy` | src/engine.ts:1140-1199 | the row takes the port over, or the port is given back unless the row had it; a candidate that was busy makes way for the next |
| `ClaimEffects.NoReservationIsLeft` | src/engine.ts:3494-3503 | in every state of every run each reserved ref is that of a create in flight and each reserved port was picked for a create or deploy in flight, so nothing stays reserved for good |
| `ClaimEffects.WhatACreateIsGiven` | src/engine.ts:3577-3592 | a create has its ref exactly when no branch of its project has the name, no branch the ref and no other create holds that; what is refused changes nothing |
| `ClaimEffects.WhatAnAbandonLeaves` | src/engine.ts:492-511 | a create that ends before it made anything gives its ref back and changes nothing else |
| `ClaimEffects.LanesOrNothing` | src/engine.ts:527-542 | a create goes on exactly when no fewer ports are free than it has services; otherwise it ends and only gives its ref back |
| `ClaimEffects.WhatLanesACreateIsGiven` | src/engine.ts:3476-3493 | one that goes on has a lane for each of its services, each the lowest port that was free and none before it has, all reserved for it, and nothing else changes |
| `ClaimEffects.WhatACommitLeaves` | src/engine.ts:631-639 | the row and its lanes stand, no other branch is touched, and nothing of the create is in flight or reserved any more |
| `ClaimEffects.WhatARollbackLeaves` | src/engine.ts:547-562 | no row or lane is written, the root goes if its removal works and no other root is touched, and what the create held is free again |
| `ClaimEffects.WhatADropLeaves` | src/engine.ts:3049-3056 | a branch that goes takes its lanes, its app rows and what stands under its root along, and every other branch stays as it is |
| `ClaimEffects.NextIsLowest` | src/engine.ts:3424-3444 | the next port is the lowest that no row, lane or reservation has and nothing listens on, and there is none exactly when none of the range is free |
| `ClaimEffects.WhatADeployIsGiven` | src/engine.ts:3690-3714 | a deploy that publishes does so on the port it names, else on the one its row has, else on the lowest free one, which alone is reserved |
| `ClaimEffects.ADeployGoesOn` | src/engine.ts:3690-3714 | and it goes on whenever one of them is there |
| `ClaimEffects.WhatADeployLeaves` | src/engine.ts:1155-1199 | its group on the port it was given and nothing reserved of that; no other app, row or reservation changes |
| `ClaimEffects.WhatAFailedDeployLeaves` | src/engine.ts:1140-1147 | rows and apps as they were and nothing reserved of a port its row did not have; a busy port sends a candidate deploy on to the next |
| `ClaimEffects.ARedeployKeepsItsPort` | src/engine.ts:3696-3704 | a group that is deployed again without a port named ends up on the one it had |
| `ClaimEffects.WhatIsTried` | src/engine.ts:1246-1258 | the first five free candidates are tried, in order, and a free one is missing only behind five others |
| `ClaimEffects.WhatATryIs` | src/engine.ts:1234-1241 | each on the branch that has the name then, with nothing reserved and the rest kept for the next turn |
| `ClaimEffects.WhatALaneReadLeaves` | src/engine.ts:3452-3474 | the first read of a lane that is needed gives it the lowest free port and records that; every other read changes nothing |
| `ClaimEffects.WhatALaneMoveLeaves` | src/router/index.ts:459-473 | a lane that must move gets the lowest free port, and no other lane, row or app changes |
| `ClaimEffects.WhatARenameLeaves` | src/engine.ts:1020-1041 | a branch has its new name unless it is the default one or another row of its project has that; nothing else changes, its ref least of all |
| `ClaimEffects.WhatAGroupRenameLeaves` | src/engine.ts:2209-2220 | a group has its new name on every branch of the project that carried it, with its port, unless some branch carries that name; nothing else changes |
| `ClaimRuns.RefsAreExclusive` | src/engine.ts:3577-3604 | over every interleaving of creates, renames, deploys, failures and deletes no two rows or creates in flight share a ref |
| `ClaimRuns.RootsStayOwned` | src/engine.ts:553-559 | what stands under a root is what the row or the create that has its ref put there and nothing else, throughout a run, exactly when no rollback of a create that wrote fails to remove its root |
| `ClaimRuns.CommittedRootsAreSafe` | src/engine.ts:553-559 | in every run, what a committed branch has under its root only ever gains bytes of its own for as long as the row stands |
| `ClaimRuns.RollbackKeepsRefs` | src/engine.ts:547-562 | a rollback leaves the root of every committed branch exactly as it was, and nothing under its own ref unless the removal failed |
| `ClaimRuns.RollbackKeepsRoots` | src/datadir.ts:150-158 | roots stay owned at a rollback exactly when it does not leave one behind |
| `ClaimRuns.FreshRefHasNoRoot` | src/engine.ts:3577-3592 | while roots are owned, a create that gets its ref finds nothing under it |
| `ClaimPorts.AllocatedIsNew` | src/engine.ts:3476-3493 | the lanes of one create are in range, apart from each other and from everything taken |
| `ClaimPorts.CandidatesAreFree` | src/engine.ts:1246-1258 | the candidates ascend, none is an app's, and a free one is left out only when there are enough before it |
| `ClaimPorts.AutomaticPortsAreDistinct` | src/engine.ts:3430-3444 | no two lane or host ports the engine picked coincide, on rows or in flight, in every run in which no step clashes |
| `ClaimPorts.ExactlyWhenNothingClashes` | src/engine.ts:3716-3720 | ports stay apart and those out of the range reserved in every state exactly when no pick meets a port that is held and no deploy gives up a reservation that is another's |
| `ClaimPorts.StepKeepsPorts` | src/engine.ts:1230-1258 | the same for each step |
| `ClaimPorts.OnlyCandidatesMeet` | src/engine.ts:1246-1258 | two picks can only meet over a candidate of a group that is deployed over |
| `ClaimPorts.EndKeepsPorts` | src/engine.ts:1140-1196 | the end of a deploy keeps ports apart and reserved exactly when it gives up no reservation that is another's |
| `ClaimPorts.OnlyNamedPortsSteal` | src/engine.ts:3701-3702 | while the claims hold, only a deploy on a port its caller named, and that its row does not have from a pick, can do that |
| `ClaimWitnesses.ClonesCoincide` | src/engine.ts:832-837 | a run from nothing, in which the group is carried by another branch of each project, after which two branches of two projects record one port |
| `ClaimWitnesses.LaneMeetsCandidate` | src/engine.ts:3451-3451 | one after which a lane and an app of a branch record one port |
| `ClaimWitnesses.StaleRootIsFound` | src/engine.ts:557-557 | one in which a create finds bytes of another under its ref, and the run that commits it beside them |
| `ClaimWitnesses.StolenPortIsHandedOutAgain` | src/engine.ts:1144-1144 | one, with a single create in flight, after which its lane and an app of another branch record one port |
| `ClaimNames.NamesAreUnique` | src/engine.ts:1026-1026 | no two branches of a project, or a branch and a create in flight, are called the same throughout a run exactly when no rename takes the name of a create in flight |
| `ClaimNames.RenameKeepsNames` | src/engine.ts:1020-1030 | the same at the one step that can break it |
| `ClaimNames.TwoBranchesOneName` | src/engine.ts:1026-1026 | a run from nothing after which a project has two branches of one name |
| `SqlMask.MaskSqlText` | src/sqlsurface.ts:25-80 | the in-place lexer computes the mask, for every text; `SqlMaskGrammar` says what that shows |
| `SqlMask.Blank` | src/sqlsurface.ts:27-27 | exactly the units of the range that are not whitespace become spaces |
| `SqlMask.ScanOne` | src/sqlsurface.ts:30-77 | one turn of the main loop finds the span of the construct it stands on |
| `SqlMask.ScanBlock` | src/sqlsurface.ts:36-42 | the scan over a nested block comment ends where `BlockEnd` says, which is after a balanced comment (`SqlMaskGrammar.BodyEnds`, `EndedIsBody`) or at the end of the text |
| `SqlMask.ScanQuoted` | src/sqlsurface.ts:51-68 | quoted text is scanned over doubled quotes and escapes to its end or past the text's |
| `SqlMaskGrammar.AfterAComment` | src/sqlsurface.ts:36-42 | a whole block comment goes, however deep it nests, and what follows it is masked as if the text began there |
| `SqlMaskGrammar.CommentThatNeverEnds` | src/sqlsurface.ts:36-42 | a comment that nothing ends takes the rest of the text |
| `SqlMaskGrammar.BodyEnds` | src/sqlsurface.ts:38-42 | a balanced comment takes the depth down by one, whatever is nested in it |
| `SqlMaskGrammar.EndedIsBody` | src/sqlsurface.ts:38-42 | and a scan that ends before the text does has read one |
| `SqlMaskGrammar.EveryTextIsRead` | src/sqlsurface.ts:21-80 | every text can be read as comments that nest, quoted text, dollar-quoted bodies and plain units, and its mask shows the plain ones and nothing of the others but their layout |
| `SqlMaskGrammar.MaskShowsTheReading` | src/sqlsurface.ts:21-80 | and so it does however the text is read by that grammar |
| `SqlMaskGrammar.TokenTurn` | src/sqlsurface.ts:30-77 | one token of the grammar is one turn of the lexer |
| `SqlMaskTheorems.MaskKeepsLayout` | src/sqlsurface.ts:21-27 | every unit stays or becomes a space, and whitespace stays |
| `SqlMaskTheorems.MaskIdempotent` | src/sqlsurface.ts:25-80 | masking twice is masking once exactly on the texts that do not break off after an escaped backslash |
| `SqlMaskTheorems.EndsElsewhere` | src/sqlsurface.ts:54-61 | a text that does not end in a backslash is one of them |
| `SqlMaskTheorems.NotAlwaysIdempotent` | src/sqlsurface.ts:54-61 | the shortest text on which a second pass blanks more |
| `SqlMaskTheorems.TrailingTrimIndex` | src/sqlsurface.ts:86-90 | the loop finds where trailing blanks and semicolons begin |
| `SqlMaskGrammar.OnlyBlanksAndSemicolonsGo` | src/sqlsurface.ts:86-90 | what is trimmed is blanks and semicolons, and all of them |
| `SqlMaskTheorems.CutCommutesWithMask` | src/sqlsurface.ts:82-90 | cutting where the mask is trimmed and then masking is masking and then cutting |
| `SqlMaskTheorems.EmbeddedStatement` | src/engine.ts:3297-3306 | the embedded text shows no `;` in its own mask exactly when the statement was accepted as single, and would not be trimmed again |
| `Metrics.MetricsHistory.Record` | src/metrics-history.ts:56-65 | the flat array gains the cleaned sample, unless it is not later than the last or has no name; `MetricsAnswers.ATickIsKept` says which field is which reading |
| `Metrics.MetricsHistory.StaleLength` | src/metrics-history.ts:71-72 | the length of the stale prefix, in whole samples |
| `Metrics.MetricsHistory.Fill` | src/metrics-history.ts:96-114 | one pass over the array fills exactly the specified buckets |
| `Metrics.MetricsHistory.SortKeys` | src/metrics-history.ts:116-116 | bucket starts in ascending order |
| `Metrics.MetricsHistory.LoadRows` | src/metrics-history.ts:158-163 | the rows of one saved array, with those out of order dropped |
| `Metrics.MetricsHistory.Prune` | src/metrics-history.ts:68-76 | each container keeps the samples from the cutoff on, and goes when it has none |
| `Metrics.MetricsHistory.Query` | src/metrics-history.ts:90-129 | the series answered are those of the bucket specification, target by target; `MetricsAnswers` says what they show |
| `Metrics.MetricsHistory.ToJson` | src/metrics-history.ts:141-143 | the saved file holds every container's samples |
| `Metrics.MetricsHistory.Load` | src/metrics-history.ts:148-167 | malformed containers are skipped, rows out of order dropped, versions 1 and 2 brought to the layout of 3, and the result pruned |
| `MetricsAnswers.ATickIsKept` | src/metrics-history.ts:56-65 | a tick adds at most one sample to a container, the first of its rows, and that is the processor, the memory, what was received, what was sent, the generation and the running state it reads, in their fields; nothing else changes |
| `MetricsAnswers.PruningKeepsAWeek` | src/metrics-history.ts:68-76 | pruning keeps exactly the samples of the last seven days and an hour |
| `MetricsAnswers.WhatATargetIsAnswered` | src/metrics-history.ts:90-129 | nothing when none of its samples counts; otherwise its processor and memory and, when a rate could be measured, what it sent as egress and what it received as ingress, each point the mean of just those readings in its bucket |
| `MetricsAnswers.TargetsInOrder` | src/metrics-history.ts:92-127 | targets are answered one after the other, in the order asked |
| `MetricsAnswers.BucketHolds` | src/metrics-history.ts:97-114 | a bucket holds the count and the sums of exactly the readings and rates that floor onto it |
| `MetricsAnswers.WhatIsLoaded` | src/metrics-history.ts:148-167 | a container whose saved array is whole, in whichever version, is loaded from every row of it that is later than those before |
| `MetricsAnswers.WhatIsNotLoaded` | src/metrics-history.ts:155-157 | and otherwise there is nothing of it |
| `MetricsAnswers.WindowIsAsAsked` | src/metrics-history.ts:182-201 | an end not given is now, a beginning not given an hour before; refused exactly when an argument is malformed, the step zero, or the window does not run forward; the step is the one asked for, a minute by default, unless too fine |
| `MetricsTheorems.StepReachesAcross` | src/metrics-history.ts:182-201 | an accepted window runs forward, its step is the one asked for when 1999 of them reach across, and otherwise the least that does |
| `MetricsTheorems.BucketsAreExact` | src/metrics-history.ts:97-114 | a bucket is there exactly when a sample floors onto it, and holds the exact count, sums and rates of the samples that do |
| `MetricsTheorems.PointsAreExact` | src/metrics-history.ts:116-126 | a series has one point for each bucket it can show, ascending |
| `MetricsTheorems.PruneChangesNoAnswer` | src/metrics-history.ts:68-76 | pruning never changes the answer of a query starting one rate gap inside what is retained |
| `MetricsTheorems.SevenDaysSurvivePruning` | src/metrics-history.ts:12-16 | so every seven-day window ending at the pruning instant is answered as before |
| `MetricsTheorems.MarginIsNeeded` | src/metrics-history.ts:106-113 | with one second less of margin a rate is lost |
| `MetricsTheorems.EarlierIncarnationInvisible` | src/metrics-history.ts:32-36 | samples before a target's `since` never influence its answer, rates included |
| `MetricsTheorems.AtMostMaxPoints` | src/metrics-history.ts:197-199 | every accepted window, aligned or not, is answered with at most 2000 points a series |
| `MetricsTheorems.LoadedIsWellFormed` | src/metrics-history.ts:145-147 | whatever a file holds, what is loaded is clean and strictly ascending |
| `MetricsTheorems.AlwaysWellFormed` | src/metrics-history.ts:52-76 | after any run every stored container is non-empty, strictly ascending and clean |
| `MetricsTheorems.RoundTrip` | src/metrics-history.ts:141-167 | after any run of recording, pruning and loading, saving and loading back is pruning |
| `GitSlots.BuildSlots.Release` | src/server.ts:1310-1311 | gives the slot back and wakes the first waiter, once however often it is called |
| `GitSlots.BuildSlots.Acquire` | src/server.ts:1307-1309 | takes a free slot at once, and waits in line only when there is none |
| `GitSlots.BuildSlots.Resume` | src/server.ts:1308-1309 | a woken build takes a slot without looking whether there is one, and starts unless the daemon is closing |
| `GitSlots.BuildSlots.WakeAll` | src/server.ts:1297-1304 | closing lets every waiter go on and no more builds start |
| `GitSlots.SlotsAreConserved` | src/server.ts:1307-1312 | free slots and live holders add up to two in every state, nobody is in two places and no waiter is stranded |
| `GitSlots.NobodyIsLost` | src/server.ts:1306-1312 | over every run a build that asked for a slot is in line, let go on, or has one, until it gives that back |
| `GitSlots.TheLineIsKept` | src/server.ts:1307-1311 | builds are let go on in the order of the line: a returned slot lets the first go, closing lets all go, and none overtakes |
| `GitSlots.TwoAtATime` | src/server.ts:1285-1324 | never more than two builds run, exactly when no woken build that is to start finds its slot taken |
| `GitSlots.NoMoreBuilds` | src/server.ts:1297-1320 | once the daemon closes builds only end |
| `GitSlots.ThreeAtOnce` | src/server.ts:1307-1311 | a reachable state with three builds running |
| `GitSlots.OvershootLasts` | src/server.ts:1307-1311 | while builds queue a release and the wake-up it gives keep the number running where it was |
| `GitQueue.GitBuilds.RunGitDeploy` | src/server.ts:1414-1442 | a job starts a runner, or is kept as the pending one when it is at least as new, or is dropped |
| `GitQueue.GitBuilds.Begin` | src/server.ts:1348-1377 | a job goes on to its build only when the binding stands, the policy allows it, it is newer than what is deployed and the daemon is not closing; `GitQueueGate` says so of the events of a run |
| `GitQueue.GitBuilds.TakeNext` | src/server.ts:1431-1440 | the runner takes the pending job and leaves none, or ends and drops its entry |
| `GitQueue.GitBuilds.End` | src/server.ts:1435-1440 | a runner that ends leaves its entry idle and takes it out of the map |
| `GitQueue.GitBuilds.BuildEnds` | src/server.ts:1386-1390 | a build that worked goes on to its deploy, one that failed ends the job |
| `GitQueue.GitBuilds.DeployEnds` | src/server.ts:1390-1398 | only a push that was deployed to a standing binding is recorded |
| `GitQueue.GitBuilds.Close` | src/server.ts:1297-1302 | closing drops the pending job and starts nothing more |
| `GitQueueGate.WhatMayBeginDoes` | src/server.ts:1348-1377 | a job that is offered goes to work exactly when its binding stands and, for a push, the policy is `allow` and what is recorded is older and another commit; a connect build needs no policy |
| `GitQueueGate.HowWorkEnds` | src/server.ts:1386-1398 | a build that ends well is deployed, any other end of a build or deploy ends the job, and only a push deployed to a standing binding is recorded |
| `GitQueueGate.NothingGetsPastTheGate` | src/server.ts:1342-1412 | in every state of every run, a job being built or deployed was begun by an arrival or a take whose view was bound and, for a push, allowed and newer than what was recorded then; it has been at work since, and its build ended well if it is being deployed |
| `GitQueueGate.OnlyDeployedPushesAreRecorded` | src/server.ts:1390-1398 | what is recorded changes only when a push that got past the gate and was built well was deployed to a binding that still stands, and then it is that push |
| `GitQueueRuns.AlwaysOneRunner` | src/server.ts:1414-1442 | at most one runner works on a binding, and the map holds its entry while it does |
| `GitQueueRuns.LastDeployedAtIncreases` | src/server.ts:1367-1398 | over any run what is recorded as deployed is only ever replaced by something strictly later |
| `GitQueueRuns.PendingIsNewest` | src/server.ts:1418-1420 | the pending job is the newest that arrived since the runner last took one |
| `GitQueueRuns.NewestIs` | src/server.ts:1418-1420 | that is one of those that arrived, none is newer and of those as new it came last |
| `GitQueueRuns.DrainedQueueDeployedNewest` | src/server.ts:1270-1275 | with policy `allow`, one time per commit and builds that succeed, and from whatever an earlier daemon recorded, a drained queue has recorded a deployment no push is newer than, in whatever order they came |
| `DeviceCodes.DeviceCodeStore.Start` | src/identity.ts:311-322 | expired codes go first; refused exactly when a cap is hit, otherwise a pending record under the first free user code, or still drawing while all that was drawn is taken |
| `DeviceCodes.DeviceCodeStore.Gc` | src/identity.ts:297-300 | exactly the expired records go, with their user codes |
| `DeviceCodes.DeviceCodeStore.AtIpCap` | src/identity.ts:314-315 | the count that stops early answers whether the address is at its cap |
| `DeviceCodes.DeviceCodeStore.Consume` | src/identity.ts:302-302 | the record goes with its user code |
| `DeviceCodes.DeviceCodeStore.Approve` | src/identity.ts:326-333 | marks a live pending record and says `ok`, and changes nothing otherwise |
| `DeviceCodes.DeviceCodeStore.Deny` | src/identity.ts:336-341 | likewise for a denial |
| `DeviceCodes.DeviceCodeStore.Poll` | src/identity.ts:345-352 | a terminal answer consumes the record; a pending one leaves it |
| `DeviceCodes.TypedAsShown` | src/identity.ts:292-293 | a user code typed as shown, grouped or not and in either case, is the stored one |
| `DeviceCodeFates.WhatAStartIssues` | src/identity.ts:311-322 | a code is issued exactly when fewer than 2000 are live, fewer than 20 of them from that address, and it is the first drawn that is free; it is good for a quarter of an hour, nothing live is touched and nothing expired stays |
| `DeviceCodeFates.CodeIsKept` | src/identity.ts:288-353 | over every run an issued code is kept, with what was decided on it, until the poll that reports that or its expiry, or the start after its expiry |
| `DeviceCodeFates.WhatAPollIsAnswered` | src/identity.ts:345-352 | while a code is kept a poll is answered the first decision made by somebody who typed its user code before it expired, pending while there is none, and expired from then on |
| `DeviceCodeFates.WhatADecisionIsAnswered` | src/identity.ts:326-341 | the first decision is accepted, every other one is told that there is one, and none is accepted once the code has expired |
| `DeviceCodeFates.ThenItIsUnknown` | src/identity.ts:343-352 | a decision is reported by exactly one poll: after it no poll is told anything of a code issued once |
| `DeviceCodeRuns.IssuingKeepsInverse` | src/identity.ts:316-320 | issuing keeps the maps inverse exactly when the device code drawn is not live |
| `DeviceCodeRuns.AlwaysInverse` | src/identity.ts:288-353 | the maps are inverse in every state exactly when no live device code is ever drawn again |
| `DeviceCodeRuns.AlwaysCapped` | src/identity.ts:271-275 | at most 2000 live codes and at most 20 of one address, in every state |
| `DeviceCodeRuns.ApprovedOnlyAfterOk` | src/identity.ts:324-352 | a poll is answered `approved` only after an approval of that very code returned `ok`, and strictly before it expires |
| `DeviceCodeRuns.ApprovedAtMostOnce` | src/identity.ts:343-352 | a device code issued once is answered `approved` at most once in a run; later polls find it unknown |
| `DeviceCodeRuns.ReissuedCodeIsCollectedAgain` | src/identity.ts:316-321 | why it may be issued only once |

## Left out

- The docker CLI, HTTP routes, TLS, sockets, S3 signing, hashing and cookies: only their answers appear, as choices of the environment.
- `src/state.ts` is taken as one atomic read or write per mutate; the adapters, the router and the templates are not part of this model.
- Wall-clock deadlines: caller budgets on a wake, readiness polling and build timeouts; instants are parameters.
- Hostname reservations and the hostname table, so also the reservations a rename or a first deploy takes.
- `renameDbService`, which moves rows branch by branch and has no compensation.
- The idle sweep and the always-on pass; they use the lock, the snapshot, the sleep and the wake modelled here.
- `SignInLimiter`, `stripLeadingSqlComments`, `lastStatementKeyword`, `sampled`, `liveSeries` and `statsToSamples`: easy members.
- Git image tags and pruning, git events and webhook signatures.
- The boot sweep that reclaims abandoned reservations.
- OpLock.OperationLock.WithOp: a promise chain is the sequence of tickets it settles after; the body itself and its errors are not part of this model.
- Redrive.RedrivesNeverStick: contexts beside the re-driving ones are taken to keep the discipline, as operations with one acquisition and nothing nested do; what a rename does to service ids is left out of its rows; branch ids hold no `:` and no service is called `*branch`, as with UUIDs and prefixed service ids.
- Wake.TrafficStartsOnlyWanted: one key at a time, whose operations run in queue order as module OpLock proves; eviction and readiness inside the body are awaits at which nothing of this key changes.
- Eviction.EvictForRoom: the ledger entry a first look creates is part of what the next turn's view may hold, and the log lines are left out.
- Snapshot.StateSnapshot.Sleep: what others do to the snapshot between its read and its stop is not in this method but in the runs of `ObservedRunningIsRecent`; the sleep mark and the event are left out.
- Snapshot.ObservedRunningIsRecent: `stateOf`'s mapping and the upstream address cache are left out; a caller that records `running` is taken to have seen it run.
- Migration.Branch.Boots: assumes that nothing writes a postgres or managed source after its proven stop, and starts from disks on which a finished-looking destination beside a source holds the same bytes and an app on the bind mount reads a finished copy; running or stopped intent across a crash is not stated.
- Migration.Branch.MigrateVolumes: the runs with crashes take an app's volume as not written between its copy and its redeploy; `LiveVolume` has the writes, on a boot without crashes.
- ManagedIds.Install.Migrate: registrations are added and never removed, and a copy is recorded as soon as it begins.
- Teardown.Engine.TeardownBranch: the keys it holds keep other operations off the branch; the unwind of a failed create, which runs the same demolition, is not modelled apart.
- Teardown.Engine.DestroyBranch: what it counts as destroyed is stated for rows whose apps are named after their ref, as the engine names them.
- Teardown.Engine.DestroyProject: branch names are distinct within a project, as secrets are kept by name.
- RenameSaga.HealthyCompletes: all old and new names are taken to be distinct, so a ref or group that contains `-app-` and makes one branch's container name another's is left out here; `Teardown` admits it.
- RenameSaga.Engine.Rename: service settings, volumes, secrets, git bindings and the scheduler's ledger, which move in the same write as the rows, are left out.
- Claims.Engine.LocalHostPort: the port in a legacy row's URL counts as the row's own.
- ClaimRuns.RootsStayOwned: what an adapter makes of bytes it finds under a root is left out; the root of a deleted branch goes with its row, as module `Teardown` proves of a row that goes.
- Claims.Engine.MoveLane: the router moves the lane its row has; a route that has meanwhile gone stale is left out.
- ClaimRuns.RefsAreExclusive: branch ids are minted afresh, a ref is spelled from project and name, and what the operation keys exclude (a delete or a rename of the group beside an operation on the branch, two deploys of one group) does not occur; a restart of the daemon, which ends what is in flight, is left out.
- Metrics.MetricsHistory.Query: numbers are exact, so floating-point rounding and its effect on bucket starts are left out.
- MetricsTheorems.StepReachesAcross: the digits and unit letters of the parameters are read before `MetricsWindow`.
- DeviceCodes.TypedAsShown: upper-casing is that of ASCII; other letters that JavaScript folds to ASCII are left out.
- GitQueueRuns.DrainedQueueDeployedNewest: commit times are positive, since a job without a commit counts as 0.
