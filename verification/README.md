# fc.qemu, modelled and verified

fc.qemu runs virtual machines on a cluster of hosts. A VM's disks are RBD images in Ceph; whoever runs
the VM must hold an exclusive lock on each of them. The agent on each host starts, stops and migrates
VMs, reacts to configuration events and cleans up after failures. Nearly all of its safety rests on
protocols between processes that can fail at any command: this project models those protocols and
the code that takes part in them, and proves what they keep.

Each subject has a transition system over values or a specification function, with the theorems about
all its runs, and the code as classes and methods whose executions are such runs. Commands, requests,
clocks and other processes are nondeterministic: any command may fail, with or without having taken
effect, and between any two actions everyone else may act.

Besides what is kept in every run, three kinds of statement say that the protocols get somewhere: that each
turn for the worse has its cause in the run (`MigrationCauses`); that from every reachable state some
continuation leads to the wanted end, often as an if-and-only-if (`HandoverCanSucceed`,
`RescueCanKeepTheGuest`, `NewsGetsActive`, `NobodyBlocks`, `MigrationCanComplete`, `WaitingCanSpawn`); and, for
the code, that a call in which nothing was heard to fail ends as wanted. For the latter a ghost counter of each
model (`badNews`, `trouble`, `faults`, `failures`, `breaks`) records every command that failed and every
interference that the code could meet.

| module | subject |
|---|---|
| `VolumeLock` | the lock of one image, the `locked_by_me` flag, and the lock and unlock calls |
| `Runs` | continuations of a transition system, for the theorems about what can still happen |
| `MigrationProtocol`, `MigrationSafety`, `MigrationWitness` | live migration as a transition system; its invariant and theorems; runs that show what each condition is needed for |
| `MigrationCauses`, `MigrationProgress` | why each side leaves its way; what can still go well from every reachable state, and that nothing gets stuck |
| `MigrationWorld`, `Outgoing`, `Incoming` | the code on both sides of a migration |
| `MigrationLocks` | the host-wide migration locks, for any number of hosts, and the retry loop |
| `ConfigStaging` | staging, activation and the `ensure` loop, for any number of processes |
| `FileLock`, `AgentLock` | a lock file, and the re-entrant VM lock on it |
| `AgentLifecycle` | stopping, destroying, cleaning up, starting and `ensure_`, with the locks they take and give up |
| `PoolMigration` | the RBD migration of the root image between pools, and when its commands are issued |
| `CephStart` | bringing volumes up |
| `MemoryAdmission` | booked memory under the global lock |
| `Deadlines` | timeouts, the target's cutoff, the heartbeat and the migration poll |
| `GuestAgent` | pairing of guest-agent requests and replies, freeze and thaw |

## What the proofs found

Some statements one would make about the code are false as they stand. Each is proved with its exact
condition, or with the condition under which it holds and a concrete run that shows the condition is needed.

- A lock's `locked_by_me` flag is trusted on unlock. An `rbd lock rm` that takes effect but reports a
  failure leaves the flag set, and the next, non-forced unlock then removes whichever host's lock it
  finds. Flags are honest throughout a run exactly when no such reply was lost and no marked foreign
  lock was broken by force (`RunHonestExactly`, `StaleFlagRemovesForeignLock`). A step takes another host's
  lock exactly by that guard (`LocksLeaveOnlyTheirOwner`). The migration theorems hold in every run, lost
  replies included, and name the missing locks: exactly those that were taken so and not had again
  (`LostExactly`). Such a theft can unlock the disks under a running source (`StaleFlagUnlocksRunningSource`),
  or let it report that it goes on while its guest moves (`RobbedTargetGetsTheGuest`).
- `Outgoing.__call__` exits with 0 even if `finish_incoming` was lost; the target then destroys the only
  guest at its deadline (`LostFinishLosesGuest`). At the end of both sides the target runs the guest if
  and only if it served that request (`FinishDecides`).
- A migration that fails before the transfer leaves the source running under all its locks if and only
  if nothing failed on the source itself and no lock taken from it is missing: one failing command while relocking, or a running guest that
  is not recognised, destroys it (`FailureBeforeTransfer`, `LocalFailureDestroysSource`).
- `_destroy` running out of its budget leaves the source's guest running without its locks
  (`FailedDestroyLeavesUnlockedGuest`). `Outgoing.__exit__` wants to call a method `destroy` of `Outgoing`
  in that case, which does not exist.
- When the target's grant of its migration lock is lost, the source gives back only its own lock, and
  every later attempt fails on the target's assertion until its server ends (`LostGrantIsFinal`).
- The random backoff is capped at 2^11 slots, not at the 2^13 that the comment beside it names.
- A wake-up is lost exactly when the last process on its way to look at news gives up behind a command that
  holds the VM lock, or ends abnormally, and no other process comes later (`NoLostWakeup`, `ForgottenNow`,
  `CommandLosesWakeup`, `CrashLosesWakeup`).
- A failed in-migration gives the locks up without a look at the qemu process it may have left
  (`FailedPrepareFreesUnderGuest`); a cancel request and the transfer are the only other unlocks without one.
- `cleanup_offline` removes the run files but keeps whatever locks this host holds on some, but not all,
  volumes (`CleanupOffline`).
- With locks on some of the volumes and nobody on the rest, a host is told to in-migrate the VM from itself
  (`RequiresInmigrateFrom`).
- `supervised-qemu` returns before qemu is visible to a process listing. The memory limit is kept if and only
  if no start is admitted that does not fit together with such hidden processes (`LimitIsKept`); it can be
  (`HiddenSpawnBreaksLimit`). An in-migration with several memory flags is checked by its last and counted
  by its first (`CheckedMemory`).
- `TimeOut` truncates, so a deadline counts as passed up to a second early, and a soft extension falls
  short if the time asked for lies between the truncated and the true remaining time (`SoftExtensionExactly`).
- A `freeze` that was answered by an error leaves the reply to its emergency thaw in the connection. The
  freeze is then reported as failed, as it should be, but so is the next thaw, whatever the guest did,
  until it reconnects. A connection whose sync failed is taken as it is by the next command.
- An RBD migration can be told to execute a second time while it already does, when its status was read
  before the manager began (`LateExecute`). An execute meets the freshly prepared migration exactly if no
  earlier one took effect (`QueuedExactly`).
- `Volume.lock` handles `ImageExists`, which nothing in the volume library raises; the branch is not modelled.

## Model

| member | source | states |
|---|---|---|
| `VolumeLock.UnlockHonestExactly` | src/fc/qemu/hazmat/volume.py:313-331 | an unlock keeps the flags honest if and only if it did not lose a reply while its flag was set; from an honest state it never removes another host's lock |
| `VolumeLock.ForceHonestExactly` | src/fc/qemu/hazmat/volume.py:322-331 | breaking a lock by force leaves a stale flag exactly at a marked owner other than the breaker, or at any marked owner if the reply is lost |
| `VolumeLock.StepHonestExactly` | src/fc/qemu/hazmat/volume.py:256-331 | for each lock, unlock or forced unlock by any host, failing ones included: honesty is lost exactly by the events named |
| `VolumeLock.RunHonestExactly` | src/fc/qemu/hazmat/volume.py:256-331 | over every run of locks, unlocks and forced unlocks by any number of hosts, all flags imply ownership throughout if and only if no event left a stale flag |
| `VolumeLock.OwnerKeepsLock` | src/fc/qemu/hazmat/volume.py:313-331 | without stale flags and force, a lock stays its owner's until that host unlocks it |
| `VolumeLock.StaleFlagRemovesForeignLock` | src/fc/qemu/hazmat/volume.py:322-325 | a run in which a lost `lock rm` reply makes a non-forced unlock remove another host's lock |
| `VolumeLock.Volume.LockExclusive` | src/fc/qemu/hazmat/libceph.py:146-159 | one `lock add`; success means our lock was listed or taken even if the command reported failure, busy that it was not; the command only takes a free lock, whatever other hosts do; undisturbed it succeeds exactly on a free or own lock |
| `VolumeLock.Volume.LockStatus` | src/fc/qemu/hazmat/volume.py:295-311 | what is seen is the cluster's lock at that moment; looking changes nothing |
| `VolumeLock.Volume.Lock` | src/fc/qemu/hazmat/volume.py:256-293 | whatever other hosts do meanwhile, thefts of this host's lock included: at most three tries, normal return only with this host's lock seen on the image, every write from free to own and at most one more of them than thefts; it gives up only with another host's lock seen, after three `lock add` commands, or when a command fails; undisturbed it succeeds exactly on a free or own lock; the call is one `LockStep`, after a take and a theft for each further write |
| `VolumeLock.Volume.Unlock` | src/fc/qemu/hazmat/volume.py:313-331 | whatever other hosts do meanwhile: at most one write, which removes a lock; the call is one `UnlockStep`, with force one `ForceStep`, however it ends; undisturbed it removes the lock exactly where its guard lets it; from an honest flag, without force and without a theft during the call, only this host's lock goes |
| `MigrationSafety.RunKeepsInv` | src/fc/qemu/outgoing.py:109-352 | every state of every run satisfies the protocol's invariant, whatever requests and replies are lost or late and whatever flags are stale |
| `MigrationSafety.NextKeepsInv` | src/fc/qemu/outgoing.py:109-352 | every step of source, target, qemu and other hosts keeps the invariant |
| `MigrationSafety.TargetRunsOnlyUnderAllLocks` | src/fc/qemu/incoming.py:174-237 | in every run: never both guests run, and while the target's runs the target has every volume's lock but exactly those that another host's unlock took from it |
| `MigrationSafety.SourceEndsGoneOrLocked` | src/fc/qemu/outgoing.py:109-160 | once the call has ended: the source's guest is gone, or runs under every lock but exactly those taken from it, or a `_destroy` on the source failed, or every volume's lock was taken from one of the hosts; no lock is left where the exit code says the guest has moved |
| `MigrationSafety.FailureBeforeTransfer` | src/fc/qemu/outgoing.py:162-273 | given that no `_destroy` on the source failed: a migration that ends before the transfer leaves a running, fully locked source if and only if nothing failed on the source itself and no lock taken from it is still missing |
| `MigrationSafety.LocksLeaveOnlyTheirOwner` | src/fc/qemu/hazmat/volume.py:322-325 | a step takes another host's lock if and only if it is an unlock that takes effect with its caller's flag set and another host's lock on the volume |
| `MigrationSafety.LostExactly` | src/fc/qemu/hazmat/volume.py:322-325 | the locks counted as taken from source or target are exactly those that some step took and the host has not had again |
| `MigrationSafety.UnlocksSpareTheRunningGuest` | src/fc/qemu/incoming.py:185-237 | the target gives no lock up under a running guest, and under an existing one only after a failed in-migration; the source's `_destroy` none before its guest is gone |
| `MigrationSafety.WithoutLostReplies` | src/fc/qemu/outgoing.py:109-352 | with honest flags at the start and no `lock rm` reply lost under a set flag, guests run under all locks |
| `MigrationSafety.WithoutLostRepliesNobodyRobs` | src/fc/qemu/agent.py:1222-1246 | and then no step, the source's final destroy included, takes another host's lock |
| `MigrationSafety.FinishDecides` | src/fc/qemu/incoming.py:222-224 | when both sides have ended, and the target's guest neither died by itself nor outlived its destruction, the target runs the guest if and only if it served `finish_incoming` |
| `MigrationCauses.TurnsExactly` | src/fc/qemu/outgoing.py:109-352 | in every run the source is past the handover if and only if a step of it failed, past the remote rescue if and only if there was no target or its rescue or confirmation was refused or lost or the `_destroy` after them raised, and destroying its guest for good if and only if it could not take a lock back or did not see its guest run |
| `MigrationCauses.SentExactly` | src/fc/qemu/outgoing.py:222-352 | each request was sent if and only if its cause happened; the target is told to destroy only after a failed or unheard rescue, confirmation or a raising `_destroy`, and always then |
| `MigrationCauses.VerdictExactly` | src/fc/qemu/incoming.py:120-237 | the target decides in each way if and only if its cause happened, and without a decision against the guest gives it up only at its deadline |
| `MigrationProgress.HandoverCanSucceed` | src/fc/qemu/outgoing.py:162-314 | from every reachable state of the handover in which nothing is broken yet, for any volumes and whoever holds their locks, some continuation ends migrated with the target running the guest |
| `MigrationProgress.RescueCanKeepTheGuest` | src/fc/qemu/outgoing.py:316-329 | from every reachable state of the remote rescue with the target running the guest and still listening where it has to answer, some continuation ends rescued with the target running the guest |
| `MigrationProgress.SourceCanGoOn` | src/fc/qemu/outgoing.py:330-352 | from every reachable state in which a source with a running guest takes its locks back, or waits for a listening target to destroy, some continuation ends with the guest running on the source; after the target's destroy under all locks |
| `MigrationProgress.BothCanEnd` | src/fc/qemu/outgoing.py:109-160 | from every reachable state both sides can end, even if everything fails from then on |
| `MigrationWitness.HappyPath` | src/fc/qemu/outgoing.py:109-118 | a complete migration: guest and locks on the target, both sides ended |
| `MigrationWitness.LostFinishLosesGuest` | src/fc/qemu/outgoing.py:307-314 | with the final request lost the source reports success and no host runs the guest |
| `MigrationWitness.StaleFlagUnlocksRunningSource` | src/fc/qemu/incoming.py:196-211 | a lost unlock reply and a late destroy unlock the disks of the continuing source |
| `MigrationWitness.FailedDestroyLeavesUnlockedGuest` | src/fc/qemu/outgoing.py:331-352 | a destroy out of budget ends with a running guest on another host's volume |
| `MigrationWitness.LocalFailureDestroysSource` | src/fc/qemu/outgoing.py:331-352 | without any target, one failing relock destroys the healthy source |
| `MigrationWitness.FailedPrepareFreesUnderGuest` | src/fc/qemu/incoming.py:185-194 | a failed in-migration gives the locks up with the qemu it left |
| `MigrationWitness.RobbedTargetGetsTheGuest` | src/fc/qemu/hazmat/volume.py:322-325 | a third host's stale flag lets the source report that it goes on while its guest moves to a target without locks |
| `Outgoing.Outgoing.Call` | src/fc/qemu/outgoing.py:109-160 | however it ends: exit code 0 exactly for a migrated or remotely rescued guest, with every lock released; a source that goes on has every lock but exactly those taken from it; without a failed `_destroy` it does not raise, and before the transfer a healthy source runs on fully locked; a call that hears of nothing bad ends migrated |
| `Outgoing.Outgoing.Connect` | src/fc/qemu/outgoing.py:162-220 | a target, or no transfer and straight to relocking |
| `Outgoing.Outgoing.AcquireMigrationLocks` | src/fc/qemu/outgoing.py:222-273 | goes on to the transfer, or into rescue without having begun it; a cancel request is sent exactly if the configuration has changed |
| `Outgoing.Outgoing.TransferCephLocks` | src/fc/qemu/outgoing.py:275-277 | all volumes are tried; goes on only with none of the source's locks left and the target having taken all, and always if no unlock and no answer failed |
| `Outgoing.Outgoing.Migrate` | src/fc/qemu/outgoing.py:279-314 | ends migrated, or raises into rescue from any of its steps, and only if it heard of a failure |
| `Outgoing.Outgoing.AgentDestroy` | src/fc/qemu/agent.py:1222-1246 | with the guest gone, locks are left only where unlocking raised; otherwise the failure is recorded; where each outcome leads |
| `Outgoing.Outgoing.DropAll` | src/fc/qemu/hazmat/ceph.py:781-799 | every volume is tried; locks are left only where unlocking raised |
| `Outgoing.Outgoing.RelockAndCheck` | src/fc/qemu/outgoing.py:331-352 | continues only with the guest running and every lock but exactly those that were taken meanwhile; otherwise it goes on to destroy it |
| `Outgoing.Outgoing.Rescue` | src/fc/qemu/outgoing.py:316-352 | remote rescue, local continuation or local destruction; raises only if the last destroy did; exit code 0 exactly for the remote rescue; if it hears of nothing bad it ends with the remote rescue, or without a target goes on locally |
| `Outgoing.Outgoing.AskForRescue` | src/fc/qemu/outgoing.py:318-325 | a rescue and a confirmation that are granted and heard of lead to the end of the own guest; the target is told to destroy only if one of them failed or was not heard of |
| `Incoming.IncomingServer.Run` | src/fc/qemu/incoming.py:96-146 | exit code 0 exactly after `finish_incoming`, and then, unless it died by itself, the guest runs under every lock but exactly those taken from this host; otherwise it is gone, or its destruction failed |
| `Incoming.IncomingServer.ServeLoop` | src/fc/qemu/incoming.py:120-146 | requests in any order until one decides or the deadline passes, and work on every one that arrives; anything but success leads to destruction |
| `Incoming.IncomingServer.LockAll` | src/fc/qemu/hazmat/ceph.py:777-779 | a normal return means every lock but exactly those taken meanwhile; an exception during a rescue leads to destruction |
| `Incoming.IncomingServer.UnlockAll` | src/fc/qemu/hazmat/ceph.py:781-799 | every volume is tried; locks are left only where unlocking raised, none on a normal return |
| `Incoming.IncomingServer.AcquireCephLocks` | src/fc/qemu/incoming.py:219-220 | granted with every lock but exactly those taken meanwhile, or failed, and that only if a lock call raised |
| `Incoming.IncomingServer.PrepareIncoming` | src/fc/qemu/incoming.py:174-194 | granted with the guest waiting for its migration, or failed with locks left only where unlocking raised, and that only if qemu did not start |
| `Incoming.IncomingServer.Rescue` | src/fc/qemu/incoming.py:196-211 | granted with the guest running, unless it died by itself, under every lock but exactly those taken meanwhile; refused only if the guest was not seen running or a lock call raised; a refusal that decides has destroyed the guest, or failed to |
| `Incoming.IncomingServer.FinishIncoming` | src/fc/qemu/incoming.py:222-224 | granted with the guest running, which decides for success, or refused and nothing decided |
| `Incoming.IncomingServer.Cancel` | src/fc/qemu/incoming.py:226-228 | granted and decided exactly if every unlock worked, with no lock of the target left |
| `Incoming.IncomingServer.Destroy` | src/fc/qemu/incoming.py:230-237 | decides, and leaves no guest unless its destruction failed |
| `MigrationLocks.TransfersAreMatching` | src/fc/qemu/outgoing.py:222-273 | for any hosts and migrations: the transfer is reached only holding both ends' locks, and the migrations holding both are a matching on hosts |
| `MigrationLocks.NextKeepsInv` | src/fc/qemu/hazmat/qemu.py:749-776 | every lock has one holder, exactly the process whose descriptor is open |
| `MigrationLocks.LostGrantIsFinal` | src/fc/qemu/outgoing.py:255-272 | after a lost grant a migration never gets to its transfer |
| `MigrationLocks.UnstrandedCanTransfer` | src/fc/qemu/outgoing.py:240-263 | any other migration can, once both locks are free |
| `MigrationLocks.NobodyBlocks` | src/fc/qemu/outgoing.py:222-273 | from every reachable state, cyclic waiting included, a migration on its way can still reach its transfer under both locks if and only if it is between two hosts, its target's server is up and no grant was lost |
| `MigrationLocks.LockComesFree` | src/fc/qemu/outgoing.py:240-272 | each lock comes free by a step of its holder alone |
| `MigrationLocks.Source.AcquireMigrationLocks` | src/fc/qemu/outgoing.py:222-273 | it does what it hears: it ends with both locks if and only if some round had its own lock, a grant and a healthy heartbeat right after it; it times out only after as many rounds as allowed that each went on; the local lock is held at the end exactly if both were got, and then the target's is; impossible with the target's lock open from the start; the n-th wait is within 2^min(n, 11) slots of 10 ms |
| `MigrationLocks.Source.OneRound` | src/fc/qemu/outgoing.py:236-273 | one round ends the loop exactly as what it heard says, and keeps the local lock only with both |
| `MigrationLocks.BothExactly` | src/fc/qemu/outgoing.py:248-273 | whatever rounds were heard, they end with both locks if and only if one of them has a grant followed by a healthy heartbeat |
| `MigrationLocks.Ask` | src/fc/qemu/outgoing.py:250-263 | an open lock on the target always fails the request and stays; a request that arrives is granted if and only if the target took the lock, and refused only if another holds it; an answer that is lost reads as a failure |
| `MigrationLocks.HostLock.AcquireMigrationLock` | src/fc/qemu/hazmat/qemu.py:749-770 | never waits; descriptor open exactly if the lock was got |
| `MigrationLocks.HostLock.ReleaseMigrationLock` | src/fc/qemu/hazmat/qemu.py:772-776 | lock and descriptor are gone |
| `ConfigStaging.ActiveNeverDecreases` | src/fc/qemu/agent.py:811-934 | in every interleaving, the active generation never decreases |
| `ConfigStaging.NoLostWakeup` | src/fc/qemu/agent.py:1041-1086 | once all processes have ended, every staged event is active or overtaken if and only if the last process on its way to look at news was not lost, behind a command or to an abnormal end, without another coming later |
| `ConfigStaging.ForgottenNow` | src/fc/qemu/agent.py:1041-1090 | at every moment, news is nobody's to look at if and only if the last process on its way was lost so at some step and none has come since |
| `ConfigStaging.CarrierStays` | src/fc/qemu/agent.py:1041-1090 | while news is outstanding, a process on its way to look stays so or has a successor, unless it is lost behind a command or to an abnormal end |
| `ConfigStaging.ForgottenExactly` | src/fc/qemu/agent.py:1041-1090 | news was at some time nobody's to look at if and only if the last process on its way was lost behind a command or to an abnormal end |
| `ConfigStaging.NewsCarriedOn` | src/fc/qemu/agent.py:1041-1090 | while a staged event is not active, some process is on its way to look, across any step that does not lose the last one |
| `ConfigStaging.FilesAreGenuine` | src/fc/qemu/agent.py:811-934 | both files only hold their first content or an event that was staged |
| `ConfigStaging.NewsGetsActive` | src/fc/qemu/agent.py:1041-1090 | from every reachable state, whoever has the lock, the processes that are around can make everything staged active if and only if the news is not forgotten |
| `ConfigStaging.ActivateCatchesUp` | src/fc/qemu/agent.py:865-934 | an activation leaves nothing staged that is newer than the active config |
| `ConfigStaging.NextKeepsGenerations` | src/fc/qemu/agent.py:994-1008 | staging covers active, or every loaded agent is at the active generation |
| `ConfigStaging.CommandLosesWakeup` | src/fc/qemu/agent.py:1041-1063 | a command holding the lock makes the only `ensure` give up with the event not active |
| `ConfigStaging.CrashLosesWakeup` | src/fc/qemu/agent.py:171-179 | a crash of the launched `ensure` leaves the event not active |
| `ConfigStaging.Agent.StageNewConfig` | src/fc/qemu/agent.py:793-863 | staging holds this or a newer event; a launch is asked for exactly for news |
| `ConfigStaging.Agent.EnsureOnce` | src/fc/qemu/agent.py:1088-1116 | with the lock, everything staged before is active or overtaken at its end, however the work ends; it gives up only to another that has the lock; where each kind of exception leads |
| `ConfigStaging.Agent.Ensure` | src/fc/qemu/agent.py:1041-1086 | a normal end means that it has activated at least once, and that everything staged by its last look is active or overtaken |
| `AgentLock.Agent.Locked` | src/fc/qemu/agent.py:236-302 | for every call tree: counter back at its entry value, exactly the bodies that the tree says run, in their order, each under the lock, only the outermost exit releases and closes, nested calls never give up, and an outermost one only to another that has the lock |
| `AgentLock.Agent.Body` | src/fc/qemu/agent.py:288-300 | runs exactly the bodies that the call tree says run, in their order, each under the lock from start to end |
| `AgentLifecycle.RequiresInmigrateFrom` | src/fc/qemu/agent.py:1701-1742 | exactly when it names no host, this host itself, or another one, by who holds which volumes |
| `AgentLifecycle.LockedBy` | src/fc/qemu/hazmat/ceph.py:762-775 | names a host exactly if that one holds some volumes and nobody the others |
| `AgentLifecycle.ConsistentMeansEqual` | src/fc/qemu/exc.py:34-36 | the consistency formula holds if and only if its three inputs are equal |
| `AgentLifecycle.Agent.Unlock` | src/fc/qemu/hazmat/ceph.py:781-799 | every volume is tried; own locks can be left only where unlocking raised; it raises exactly if one did |
| `AgentLifecycle.Agent.Lock` | src/fc/qemu/hazmat/ceph.py:777-779 | a normal return has every lock but exactly those that others took meanwhile; none is lost but to others; it raises only if a command failed or another host has a lock |
| `AgentLifecycle.Agent.Destroy` | src/fc/qemu/agent.py:1222-1246 | locks are freed only after the guest was seen gone; a guest that outlives the budget, seen running at every look, keeps locks and run files; once it is gone, all locks but stuck ones and the run files go; with nothing going wrong it is gone and so are they |
| `AgentLifecycle.Agent.Kill` | src/fc/qemu/agent.py:1696-1699 | the same, for a guest seen running |
| `AgentLifecycle.Agent.Stop` | src/fc/qemu/agent.py:1668-1688 | run files go only when no own lock is left, unless it had to kill; a normal return leaves the guest seen gone, or a kill that it outlived |
| `AgentLifecycle.Agent.CleanupOffline` | src/fc/qemu/agent.py:1118-1124 | with run files, and unless others took locks meanwhile, own locks are all gone afterwards if and only if this host held all or none; in any case by what it saw |
| `AgentLifecycle.Agent.EnsureOffline` | src/fc/qemu/agent.py:1126-1140 | own locks are given up only after the guest was seen not running; a normal return leaves the guest seen gone, or a kill that it outlived |
| `AgentLifecycle.Agent.EnsureOnlineLocal` | src/fc/qemu/agent.py:1167-1220 | a guest seen running is only looked at; one seen not running is started or in-migrated, or it raises; when complete, this host holds every lock but exactly those that others took meanwhile, the pool migration included; locks are given up without a look only by an in-migration; with nothing going wrong the guest runs under all locks |
| `AgentLifecycle.Agent.BringUp` | src/fc/qemu/agent.py:1171-1196 | a normal return has followed what `_requires_inmigrate_from` said: an in-migration if it names a host, else a start, and either only with the guest seen not running |
| `AgentLifecycle.Agent.EnsureOnlineRemote` | src/fc/qemu/agent.py:1142-1165 | with a guest seen not running, locks go only after that look and a normal return leaves no run files; with one seen running, a normal return has tried the out-migration; locks are given up without a look only by the transfer |
| `AgentLifecycle.Agent.Inmigrate` | src/fc/qemu/incoming.py:96-237 | own locks are given up with the guest seen gone, after a failed in-migration, or on a cancel request, and never otherwise; exit code 0 only with the guest seen running, and whenever nothing goes wrong; another exit code only after a request that can decide, or at the deadline |
| `AgentLifecycle.Agent.ServePrepare` | src/fc/qemu/incoming.py:174-194 | a failed in-migration gives locks up, under a process only if it left one |
| `AgentLifecycle.Agent.Outmigrate` | src/fc/qemu/outgoing.py:109-352 | own locks are given up by the transfer, or with the guest seen gone; with exit code 0 none is left; another exit code means the guest was seen running under every lock but those that others took, or a `_destroy`; a guest not seen running is left alone; with nothing going wrong the guest is gone from here and the exit code 0 |
| `AgentLifecycle.Agent.Start` | src/fc/qemu/agent.py:1536-1549 | a guest not seen offline is left alone, locks and run files included; a completed start has all locks but those that others took meanwhile and maybe root's; with nothing going wrong the guest runs |
| `AgentLifecycle.Agent.Serve` | src/fc/qemu/incoming.py:174-237 | each request of an in-migration does what it says when nothing goes wrong; only a guest seen running makes for success |
| `AgentLifecycle.Agent.CheckConsistency` | src/fc/qemu/agent.py:1788-1815 | unless a look fails, it passes if and only if the guest's state is clear and qemu, process and locks agree; what each look and each agreement means |
| `AgentLifecycle.Agent.Ensure` | src/fc/qemu/agent.py:1087-1116 | a normal return leaves the guest running under all locks, or offline without all of them, or went through `_destroy`; an inconsistency always goes there; unless it destroys, a running guest wanted here, and any guest wanted nowhere in particular, is only looked at; a normal return has tried what is wanted: the start or in-migration that locks and service call for, an out-migration, or an end that the guest reached or outlived; when nothing goes wrong it reaches the wanted state, run files included; what locks may be given up for, by the wanted state |
| `CephStart.Ceph.Start` | src/fc/qemu/hazmat/ceph.py:661-682 | for every initial placement: scratch disks in exactly the desired pool, big enough, and locked unless others took the lock; no image shrinks, root is never lost, scratch images go only after root was locked in the same run; it completes unless a command fails or the images are misplaced |
| `CephStart.Ceph.BringOnline` | src/fc/qemu/agent.py:1205-1212 | start, ensure and lock leave every volume big enough, and locked unless others took the lock, root included, even after a prepared migration, and a prepared migration queued; it completes unless a command fails or the images are misplaced |
| `CephStart.Ceph.Ensure` | src/fc/qemu/hazmat/ceph.py:688-691 | on a normal return root's prepared migration is queued and an executed one is over; it raises only if a command failed |
| `CephStart.Ceph.AttachVolumes` | src/fc/qemu/hazmat/ceph.py:649-659 | each disk's volume is the desired pool's image, or else the only one there is; it raises only if a command failed or the images are misplaced |
| `CephStart.Ceph.Process` | src/fc/qemu/hazmat/ceph.py:649-691 | one process from its configuration on: after a start that returns every volume is ready, after an `ensure` root's migration has got on; however it ends, root is in exactly one pool and has not shrunk |
| `CephStart.Ceph.Run` | src/fc/qemu/hazmat/ceph.py:222-300 | over any starts and ensures with changing desired pools: root stays in exactly one pool, never shrinks, and all migration commands come in turn |
| `PoolMigration.MigrationsRunToTheirEnd` | src/fc/qemu/hazmat/ceph.py:283-300 | between two prepares, the first of which took effect, lie an effective execute and then an effective commit |
| `PoolMigration.EndedByCommit` | src/fc/qemu/hazmat/ceph.py:293-298 | a pending migration is ended by a commit that met it executed |
| `PoolMigration.QueuedByExecute` | src/fc/qemu/hazmat/ceph.py:287-292 | a migration is executed only after an execute command queued it |
| `PoolMigration.QueuedExactly` | src/fc/qemu/hazmat/ceph.py:283-300 | what a command meets after a prepare is a queued migration if and only if an execute has taken effect since, and the freshly prepared one if and only if none has |
| `PoolMigration.TraceIsSound` | src/fc/qemu/hazmat/ceph.py:222-300 | in every run of the code each prepare meets no migration, each execute a prepared or queued one, each commit an executed one |
| `PoolMigration.MigrationCanComplete` | src/fc/qemu/hazmat/ceph.py:283-300 | from every state that the code reaches, the code and the manager can complete a pending migration if and only if it was not found in execution with nobody having queued it |
| `PoolMigration.LateExecute` | src/fc/qemu/hazmat/ceph.py:287-292 | a run of `ensure_migration` and `prepare` in which a second execute meets its migration in execution |
| `CephStart.Spec.StartRoot` | src/fc/qemu/hazmat/ceph.py:222-261 | root stays locked, unless others took the lock, if and only if it was not moved; never executes a migration; moves it only to the desired pool |
| `CephStart.Spec.StartRootDisk` | src/fc/qemu/hazmat/ceph.py:661-682 | root's round of the start loop keeps the image whole and leaves it ready |
| `CephStart.Spec.StartScratchDisk` | src/fc/qemu/hazmat/ceph.py:661-682 | a scratch disk's round leaves it ready, formatted right after it was locked, and removes nothing from the desired pool |
| `CephStart.Spec.PreStart` | src/fc/qemu/hazmat/ceph.py:357-364 | on completion no image outside the desired pool is left; the one inside is untouched |
| `CephStart.Spec.EnsurePresence` | src/fc/qemu/hazmat/ceph.py:693-701 | creates only where no pool has the image, and attaches the desired pool's |
| `CephStart.Spec.EnsureRootPresence` | src/fc/qemu/hazmat/ceph.py:263-277 | an existing root image stays; a missing one is created once |
| `CephStart.Spec.ExistsInPool` | src/fc/qemu/hazmat/ceph.py:175-188 | normal return only if the image is in no pool or exactly the one named |
| `CephStart.Spec.ExistsInPools` | src/fc/qemu/hazmat/ceph.py:145-154 | lists exactly the pools that have the image, each once |
| `CephStart.Spec.GetVolume` | src/fc/qemu/hazmat/ceph.py:706-722 | the desired pool's image first, then the only other one, else none |
| `CephStart.Spec.EnsureMigration` | src/fc/qemu/hazmat/ceph.py:283-300 | its result tells whether a migration is pending; on a normal return an executed migration is over, and a prepared one is queued if execution is allowed; with execution disallowed it at most commits; it raises only if a command failed |
| `CephStart.Spec.Ensure` | src/fc/qemu/hazmat/ceph.py:279-281 | for the root disk, on a normal return a prepared migration is queued and an executed one is over |
| `CephStart.Spec.EnsureSize` | src/fc/qemu/hazmat/volume.py:248-254 | at least the size asked for, never smaller than before |
| `CephStart.Ceph.Lock` | src/fc/qemu/hazmat/ceph.py:777-779 | on a normal return every open volume is locked unless others took the lock; none is lost but to others |
| `MemoryAdmission.LimitIsKept` | src/fc/qemu/hazmat/qemu.py:269-367 | in every interleaving the memory of all VMs and of the admitted start stays within the limit throughout if and only if no start is admitted that does not fit together with the hidden processes |
| `MemoryAdmission.OverbookedExactly` | src/fc/qemu/hazmat/qemu.py:269-367 | the limit was exceeded at some time if and only if such a start was admitted |
| `MemoryAdmission.VisibleSpawnsKeepLimit` | src/fc/qemu/hazmat/qemu.py:313-367 | in particular when every spawn is visible as it returns |
| `MemoryAdmission.HiddenSpawnBreaksLimit` | src/fc/qemu/hazmat/supervise.py:19-27 | a run in which a hidden process lets two starts exceed the limit |
| `MemoryAdmission.NextKeepsBound` | src/fc/qemu/hazmat/qemu.py:313-367 | a step that admits no start beyond the limit keeps running VMs and the admitted start together within it |
| `MemoryAdmission.CurrentVmsBookedMemory` | src/fc/qemu/hazmat/qemu.py:235-267 | sums memory and overhead of all VMs; raises exactly if one does not tell its memory |
| `MemoryAdmission.BookedIsSum` | src/fc/qemu/hazmat/qemu.py:235-267 | what is counted in a listing is the protocol's sum over its VMs |
| `MemoryAdmission.VerifyMemory` | src/fc/qemu/hazmat/qemu.py:269-311 | a start passes if and only if every VM tells its memory, the listing with the new VM in it stays within the limit, if there is one, and the host has the memory available |
| `MemoryAdmission.CheckedExactly` | src/fc/qemu/hazmat/qemu.py:269-311 | a check in the protocol lets a start pass if and only if it fits so, and otherwise ends it and frees the lock |
| `MemoryAdmission.UsedIsBalance` | src/fc/qemu/hazmat/qemu.py:313-367 | memory in use is that at the start, plus what each spawned VM was checked with, less what ended ones had |
| `MemoryAdmission.WaitingCanSpawn` | src/fc/qemu/hazmat/qemu.py:313-367 | from every reachable state a waiting start can still get to its spawn if and only if no limit is configured or it is within it by itself |
| `MemoryAdmission.CheckedMemory` | src/fc/qemu/incoming.py:174-185 | an in-migration is checked by the memory it will be counted by if and only if the first and the last memory flag agree |
| `MemoryAdmission.World.Start` | src/fc/qemu/hazmat/qemu.py:313-367 | at most one spawn, reported truthfully, after a check that found room and with the lock held from the one to the other; it ends without a spawn only if a check found no room or the spawn failed; the lock is free of it afterwards and the limit kept |
| `MemoryAdmission.World.CheckAndSpawn` | src/fc/qemu/hazmat/qemu.py:316-367 | one check, at most one spawn, the lock held from the one to the other, and no spawn only for want of room or by a failed one |
| `Deadlines.ExpiresBelowOneSecond` | src/fc/qemu/timeout.py:21-22 | a deadline counts as passed exactly when less than one second is left |
| `Deadlines.TimeOut.Tick` | src/fc/qemu/timeout.py:24-55 | goes on exactly with a second left; sleeps the interval but the first time |
| `Deadlines.SoftExtensionExactly` | src/fc/qemu/incoming.py:148-159 | a soft extension is the maximum of both deadlines if and only if the time asked for is not between truncated and true remaining time |
| `Deadlines.WholeSoftExtensionIsMax` | src/fc/qemu/incoming.py:148-159 | for whole seconds it always is |
| `Deadlines.ExtendCutoffTime` | src/fc/qemu/incoming.py:148-159 | hard sets, soft extends, the cutoff |
| `Deadlines.Heartbeat.PingRound` | src/fc/qemu/outgoing.py:56-78 | ends with the first answer, after at most eleven failures, or after twelve failures in a row over at least 60 s |
| `Deadlines.Heartbeat.Run` | src/fc/qemu/outgoing.py:56-78 | declares failure if and only if twelve of its pings in a row have failed, at once, the first of them at least 60 s before; otherwise it goes on until it is stopped |
| `Deadlines.GapAfterFailures` | src/fc/qemu/outgoing.py:25-31 | how long after a success the next ping starts, given the failures between |
| `Deadlines.NineFailuresDoNotExpire` | src/fc/qemu/incoming.py:247-260 | up to nine failures in a row with under 4 s of calls never expire the target's deadline |
| `Deadlines.TenFailuresExpire` | src/fc/qemu/incoming.py:247-260 | ten always do |
| `Deadlines.PollMigrationStatus` | src/fc/qemu/hazmat/qemu.py:483-512 | the interval stays below 14.142 s; each tick's remaining time from the costs so far, and a timeout exactly at the first below one second; with at most 15 s per turn at least 30 s are always left and polling never times out |
| `GuestAgent.GuestAgent.Cmd` | src/fc/qemu/hazmat/guestagent.py:54-68 | on a synced connection a command reads the reply to the command sent as many before as there are fire-and-forget ones outstanding |
| `GuestAgent.GuestAgent.Session` | src/fc/qemu/hazmat/guestagent.py:54-68 | over any calls: unread replies are as many as fire-and-forget commands so far, and each other call reads the reply that many back |
| `GuestAgent.GuestAgent.DoSync` | src/fc/qemu/hazmat/guestagent.py:70-106 | succeeds if and only if the reply it reads is its sync id, which is its own if no earlier reply came late; a sync that succeeds without a stale reply equal to its id leaves nothing unread; the guest was sent a thaw and the sync |
| `GuestAgent.GuestAgent.Connect` | src/fc/qemu/hazmat/guestagent.py:108-116 | an existing connection is taken as it is; a new one is synced or unsynced |
| `GuestAgent.GuestAgent.Read` | src/fc/qemu/hazmat/guestagent.py:28-52 | the oldest unread reply, or a failure; a timeout disconnects |
| `GuestAgent.GuestAgent.Freeze` | src/fc/qemu/hazmat/qemu.py:376-388 | an errored freeze never reports frozen, leaves one reply outstanding and sends the guest an emergency thaw; on a settled connection a freeze is reported if and only if it was not errored and the guest's answer to the status is frozen; which commands are sent |
| `GuestAgent.GuestAgent.Thaw` | src/fc/qemu/hazmat/qemu.py:390-407 | on a connection that holds, a thaw is reported if and only if the guest answered it without error and then said thawed; otherwise another thaw is sent on a new connection; with one reply outstanding it fails whatever the guest did, and leaves a fresh connection |

## Left out

- Loops without a bound of their own in the code (the `ensure` loop, waiting for the global lock, serving requests, pinging) are cut off after any given number of turns, except where they cannot run on.
- XML-RPC: a request is served at most once, at any time or never; retries by the transport, authentication and the encoding are not modelled.
- The time between creating and locking the staging file: each section under the staging file's lock, the creation included, is one step.
- What happens on the target after its server has ended, beyond giving up locks: the next `ensure` is a new call.
- Several processes of one host with a volume object for the same image, and a `lock add` that takes effect after a later command.
- AgentLifecycle.RequiresInmigrateFrom: its separate looks at the volumes are one look, so that no lock changes between them.
- Consul registration and discovery; the source's wait for the target's service and the early end of a server that had no contact are "no target found" and "deadline passed".
- AgentLifecycle.Agent.Outmigrate: what the target does is open here; that a remote rescue succeeds only after a complete transfer is taken from the migration modules.
- AgentLifecycle.Agent.CephStart: how volumes are brought up is the subject of `CephStart`; here only the locks it takes and gives up.
- AgentLifecycle.Agent.Inmigrate: requests come in any order, those the protocol rules out included; that no guest exists at a cancel request, and none runs at a failed in-migration, is proved in the migration modules.
- MigrationLocks.Source.AcquireMigrationLocks: waiting is recorded, not slept, so the 12 hours are a number of rounds.
- CephStart.Ceph.Start: formatting, seeding and mounting are external commands that may fail and do not touch where images are; snapshots, aborted RBD migrations and images in pools that the agent does not look at are not modelled.
- GuestAgent.GuestAgent.Read: a connection that ends or delivers something other than a reply is one kind of failure, after which nothing is promised until the next sync.
- AgentLifecycle.Agent.Unlock: with a stale flag it may remove another host's lock; when it does is open here and said in `VolumeLock` and the migration modules.
- CephStart.Spec.Unlock: other hosts' locks are not part of this state, nor is that a stale flag removes one; see `VolumeLock`.
- Polling a migration is one step of `Outgoing`; `Deadlines.PollMigrationStatus` has the loop, which the code does not bound.
- The host's global lock and its re-entrant counter are one lock step; the same decorator pattern is modelled as `AgentLock`.
- Maintenance and evacuation, snapshots, disk throttling, routes, cloud-init data, cpu models and the command line: they hold no state that these protocols depend on.
