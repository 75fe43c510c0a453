# Verified model of the MNC OS system manager

A Dafny model of the parts of MNC OS that have to be right when power fails at the wrong moment, and of the
algorithms beside them, with proofs. `dafny verify dfyconfig.toml` checks everything.

## What is modelled

**The system manager** (`storage.cpp`, class `Backend`). It journals to `state.json`, changes the network in two
phases together with a separate settings authority, runs power jobs and factory reset. `Journal.dfy` holds the durable
state, the volatile memory and the world outside: the files, what the platform has put in force, the facts of the
boot. Every effect takes a fate from a list, so that each journal write, platform call and deletion can succeed, throw
or be cut off, before, midway or after taking effect. `Manager.dfy` gives each operation as a function from memory and
world to memory, world and outcome; `Backend.dfy` is the imperative class, each method proved equal to its function
and to keep the invariant; `AtomicWrite.dfy` justifies the fates of a journal write from the system calls of
`atomicWrite`: a rename whose directory was not synced leaves earlier journals possible, and a power cut may bring one
of them back. `Device.dfy` interleaves requests, ticks, settings writes, crashes, bootstraps, starts and reboots, also
those in which the state partition cannot be mounted and the daemon runs on a tmpfs. `Invariant.dfy` and `Runs.dfy`
prove the invariant of every run and its consequences; `Outcomes.dfy` says what a normal return of each request means, `Acceptance.dfy` when it returns;
`Agreement.dfy`, `FactoryReset.dfy` and `PowerJobs.dfy` prove what needs more than one state; `Recovery.dfy` that every
run can be recovered from; `LostIntent.dfy` and `ResetPaths.dfy` when a reset can lose its own intent, down to the text
of the profile.

**Storage preparation** (`mnc-storage`, `prepare`). `Storage.dfy` is the program with the trace of its effects and a
law of when each effect may follow the ones before it. The device model takes any lawful trace as a boot, which is how
the reset guarantee spans both programs.

**Recognisers and masks** (`validation.cpp`): `Addresses.dfy`, `NtpServers.dfy`, `Validation.dfy`.
**Journal pages and changed-field lists**: `JournalPages.dfy`, `ChangedFields.dfy`.
**Service start order**: `Services.dfy`. **Clock disciplines**: `ClockDiscipline.dfy`.
**Artifacts** (`mnc-artifact.py`): `PayloadTree.dfy`, `Artifact.dfy`.

## Where the code says more or less than its comments

- The comment at storage.cpp:268 says that the reset intent survives every deletion. The check in `loadProfile`
  (storage.cpp:128-136) lets two kinds of reset path through that delete it: `state.json` itself, and any directory
  above it spelled with a trailing separator, such as "/state/os/", because `lexically_normal` keeps the separator and
  the string comparison then fails. `ResetPaths.IntentSurvivesExactly` proves that these are all, `SlippingIsAccepted`
  that they are accepted, `StateOsSlips` gives the input and `LostIntent.LosingRun` the run that loses the intent.
  The end-to-end theorem therefore asks that no reset path covers the journal.
- Clock units: the stop and start lists are disjoint only for NTP units disjoint from the servos, but mutual exclusion
  in `Native::preferences` does not depend on it, since all stops come first; it is proved for every profile.
- The timezone check for ".." at validation.cpp:146 is implied by the allowed characters.

## Assumptions

- One clock reading per call. The code reads the clock again within a call, for example at storage.cpp:400.
- A settings write by the authority falls between two calls of the daemon, not inside one.
- The settings file changes atomically and durably, when it is written and when a reset deletes it.
- The storage policy's reset_journal names the daemon's state.json, and paths are spelled as they lie below /state,
  not under the bind mounts of mnc-storage:336-343.
- A path with a trailing separator names only a directory, so it never deletes a file of that name; the state
  directory of a profile is absolute. Deletion goes by the normal form of a path: the directories that a spelling with
  ".." passes through exist (where one is missing, nothing is deleted, which only spares the journal).
- Identifiers are drawn fresh; SHA-256 of settings is the settings' identity; the JSON of the journal reads back as
  written. In `Artifact.dfy` hash and JSON codec are parameters; freedom from collisions is
  assumed only where a row says so.
- Discovery on a device that was never configured returns the network that is in force, and
  fails where a cut-off call left a mixture.
- In `ClockDiscipline`, a unit's state changes only through the orders given to it.
- Kernel device names are unique within an inventory.

## Model

| member | source | states |
|---|---|---|
| `Agreement.AgreementInEveryRun` | meta-mncos/recipes-support/mnc-system/files/source/daemon/storage.cpp:234-252 | In every run in which the authority writes candidate settings only while no power cut can take the prepare back, with faults and crashes at any effect and any number of reboots: a transaction in flight on the state partition stays the same transaction or is settled, committed with the candidate network exactly when the settings hash is the candidate's, otherwise rolled back with the previous network; a reboot finds the last journal or, if its directory was never synced, one from before, and leaves a transaction it finds as it was; in whichever journal a power cut may leave, recovery decides by the settings alone |
| `Agreement.RunHonest` | meta-mncos/recipes-support/mnc-system/files/source/daemon/storage.cpp:403-413 | Along the same runs the candidate settings are never on disk while some journal that a power cut may leave has the transaction as merely proposed |
| `Agreement.ActAgrees` | meta-mncos/recipes-support/mnc-system/files/source/daemon/storage.cpp:358-429 | One step of such a run: every request, bootstrap, start, settings write, kill and reboot moves a durable transaction only by the verdict of recovery |
| `FactoryReset.ResetEndToEnd` | meta-mncos/recipes-support/mnc-system/files/source/daemon/storage.cpp:264-281 | Over any sequence of boots, crashes and requests an intent that no power cut can take back ceases to be durable only by a bootstrap in a boot whose storage preparation has formatted data and cleared all its trees, with success, every reset path was removed, and network, SSH and clock are at the defaults, with the journal saying so; short of a power cut the same holds of the last intent written |
| `FactoryReset.RunEarns` | meta-mncos/recipes-core/mnc-storage/files/mnc-storage:273-322 | In every such run a reset_prepared flag that can be read means that in this boot mkfs has succeeded and every reset tree has been deleted completely |
| `FactoryReset.ResetCompletes` | meta-mncos/recipes-support/mnc-system/files/source/daemon/storage.cpp:264-281 | A prepared reset that meets no fault completes, durably, whatever earlier interrupted attempts left behind |
| `ResetPaths.IntentSurvivesExactly` | meta-mncos/recipes-support/mnc-system/files/source/daemon/storage.cpp:128-136 | Of a product whose profile loadProfile has accepted and whose storage trees spare the journal, some run of a fresh device loses a durable reset intent together with the journal if and only if some reset path is state.json itself or a directory above it spelled with a trailing separator |
| `ResetPaths.AcceptedCovers` | meta-mncos/recipes-support/mnc-system/files/source/daemon/storage.cpp:129-135 | An accepted reset path covers the journal, by its normal form, exactly if it is one of those spellings |
| `ResetPaths.SlippingIsAccepted` | meta-mncos/recipes-support/mnc-system/files/source/daemon/storage.cpp:129-135 | All of those spellings are accepted, but for the state directory in its own |
| `ResetPaths.AcceptsExactly` | meta-mncos/recipes-support/mnc-system/files/source/daemon/storage.cpp:129-135 | The check refuses exactly relative paths, the root, the five listed directories, and the state directory or one above it, the latter two kinds only as spelled without a trailing separator or as the state directory itself is spelled |
| `ResetPaths.CoveringExactly` | meta-mncos/recipes-support/mnc-system/files/source/daemon/storage.cpp:133 | The string comparison finds exactly the ancestors spelled without a trailing separator |
| `ResetPaths.StateOsSlips` | meta-mncos/recipes-support/mnc-system/files/source/daemon/storage.cpp:129-135 | The input /state/os/ above a state directory /state/os/system is accepted and covers the journal |
| `LostIntent.LosesExactly` | meta-mncos/recipes-support/mnc-system/files/source/daemon/storage.cpp:264-281 | With storage trees that spare the journal, some possible run of a fresh device loses a durable intent with the journal if and only if some reset path covers it |
| `LostIntent.NeverLost` | meta-mncos/recipes-support/mnc-system/files/source/daemon/storage.cpp:264-281 | With reset paths that spare it too, no event of any run leaves the partition without a journal after a durable intent |
| `LostIntent.LosingRun` | meta-mncos/recipes-support/mnc-system/files/source/daemon/storage.cpp:267-270 | The run, for every product whose reset paths cover the journal: a reset is accepted, the next boot prepares it, and bootstrap is cut off after its last deletion |
| `Recovery.RecoversInEveryRun` | meta-mncos/recipes-support/mnc-system/files/source/daemon/storage.cpp:264-323 | After any run of a fresh device, however its calls failed and wherever it died: if it has been configured and no reset is to be completed, one bootstrap and one start without faults put the daemon in service, idle, with any transaction settled and the configured network in force |
| `Recovery.BootRecovers` | meta-mncos/recipes-support/mnc-system/files/source/daemon/storage.cpp:264-303 | From any reachable world a bootstrap without faults returns normally, recovered, if and only if it does not find an intent that storage has not prepared |
| `Recovery.StartReturns` | meta-mncos/recipes-support/mnc-system/files/source/daemon/storage.cpp:304-323 | A start without faults returns normally if and only if it finds an intent or an initialized journal, or can take over what is in force |
| `Runs.RunKeeps` | meta-mncos/recipes-support/mnc-system/files/source/daemon/storage.cpp:210-490 | The invariant of reachable states (exclusivity, power calls, write-ahead, deadlines, memory against disk) holds after every run of a fresh device |
| `Runs.StepKeeps` | meta-mncos/recipes-support/mnc-system/files/source/daemon/storage.cpp:210-490 | Every single event keeps that invariant, whatever the fates of its effects |
| `Runs.WriteAheadInEveryRun` | meta-mncos/recipes-support/mnc-system/files/source/daemon/storage.cpp:210-219 | From the end of each boot's recovery, whenever the journal on disk is initialized and records neither a transaction in flight nor a reset intent, the network in force is the configured one |
| `Runs.ExclusivityInEveryRun` | meta-mncos/recipes-support/mnc-system/files/source/daemon/storage.cpp:220-229 | In memory, in every journal that a power cut may leave, and on an unmounted partition, a transaction in flight never coexists with an accepted job or a reset intent; an armed deadline has an accepted job or a reset intent |
| `Runs.NothingPendingAfterBoot` | meta-mncos/recipes-support/mnc-system/files/source/daemon/storage.cpp:304-315 | No transaction is in flight after a normal return of bootstrap or of start, including the early return for a reset |
| `Runs.PowerAtMostOnce` | meta-mncos/recipes-support/mnc-system/files/source/daemon/storage.cpp:471-489 | Every power call in any run finds its own job durably dispatched and does what it asks; two calls for one job are both reboots of a device-reset job whose intent the journal still holds, so a reboot or shutdown job fires at most once |
| `PowerJobs.InterruptedNeverFires` | meta-mncos/recipes-support/mnc-system/files/source/daemon/storage.cpp:304-323 | A job that the journal has as accepted or interrupted while no daemon runs was never carried out, and no continuation of the run carries it out |
| `Runs.SettledInTime` | meta-mncos/recipes-support/mnc-system/files/source/daemon/storage.cpp:462-470 | A tick that returns normally 150000 ms or more after a transaction began, in the same boot, leaves it settled in memory and on disk, however often prepare was called |
| `Runs.ApplyAllOrNothing` | meta-mncos/recipes-support/mnc-system/files/source/daemon/storage.cpp:329-357 | apply ends with the new configuration in memory, on disk and in force, or the previous one in all three, or nothing touched, or the report that recovery is needed; the network never changes |
| `Runs.ApplyInEveryRun` | meta-mncos/recipes-support/mnc-system/files/source/daemon/storage.cpp:329-357 | The same of every apply request in every run of a fresh device |
| `Invariant.SettleKeeps` | meta-mncos/recipes-support/mnc-system/files/source/daemon/storage.cpp:234-245 | From any reachable state, settling keeps the invariant at every point where it can throw or be cut off |
| `Invariant.BootstrapKeeps` | meta-mncos/recipes-support/mnc-system/files/source/daemon/storage.cpp:264-303 | From any reachable state, bootstrap keeps the invariant, and a normal return leaves nothing in flight and the journalled network in force |
| `Invariant.StartKeeps` | meta-mncos/recipes-support/mnc-system/files/source/daemon/storage.cpp:304-323 | From any reachable state, start keeps the invariant and, on a normal return, leaves no transaction in flight |
| `Invariant.TickKeeps` | meta-mncos/recipes-support/mnc-system/files/source/daemon/storage.cpp:462-490 | From any reachable state, tick keeps the invariant |
| `Invariant.ApplyKeeps` | meta-mncos/recipes-support/mnc-system/files/source/daemon/storage.cpp:329-357 | From any reachable state, apply keeps the invariant |
| `Invariant.BeginKeeps` | meta-mncos/recipes-support/mnc-system/files/source/daemon/storage.cpp:358-395 | From any reachable state, beginNetwork keeps the invariant, including a failed network call and a failed rollback |
| `Invariant.PrepareKeeps` | meta-mncos/recipes-support/mnc-system/files/source/daemon/storage.cpp:403-413 | From any reachable state, prepareNetworkCommit keeps the invariant, with its one extension of the deadline |
| `Invariant.FinishKeeps` | meta-mncos/recipes-support/mnc-system/files/source/daemon/storage.cpp:414-429 | From any reachable state, finishNetwork keeps the invariant |
| `Invariant.AcceptKeeps` | meta-mncos/recipes-support/mnc-system/files/source/daemon/storage.cpp:430-461 | From any reachable state, accepting a power or reset job keeps the invariant |
| `Acceptance.JobFiresInTime` | meta-mncos/recipes-support/mnc-system/files/source/daemon/storage.cpp:430-490 | In every run: a reboot, shutdown or reset that the daemon accepts makes no power call for 5000 ms, whatever else is asked of it, and the first tick without faults after that carries it out, durably dispatched, with exactly one call |
| `Acceptance.TickFires` | meta-mncos/recipes-support/mnc-system/files/source/daemon/storage.cpp:471-479 | From any reachable state a tick without faults at or after the deadline returns normally, with the job durably dispatched and exactly one power call for it, a shutdown exactly for a shutdown job |
| `Acceptance.TickWaits` | meta-mncos/recipes-support/mnc-system/files/source/daemon/storage.cpp:471-479 | Whatever fails, a tick makes no power call while no job is due |
| `Acceptance.TickSettles` | meta-mncos/recipes-support/mnc-system/files/source/daemon/storage.cpp:462-470 | With nothing due a tick changes nothing; a transaction whose time is up is settled by the settings, durably and in force |
| `Acceptance.BeginNeeds` | meta-mncos/recipes-support/mnc-system/files/source/daemon/storage.cpp:358-375 | Whatever fails, beginNetwork returns normally only if the manager is idle, the configuration with the new network valid, the managed host name kept, the settings on disk those the proposal names, and both hashes distinct 64-digit digests; an occupied manager answers Unavailable or Busy |
| `Acceptance.BeginAccepts` | meta-mncos/recipes-support/mnc-system/files/source/daemon/storage.cpp:358-395 | Without faults it returns normally exactly then, and otherwise refuses as an invalid argument with nothing changed |
| `Acceptance.BeginFaultIsUndone` | meta-mncos/recipes-support/mnc-system/files/source/daemon/storage.cpp:386-391 | A network that cannot be applied is rolled back at once: the failure is reported, the transaction durably rolled back, the previous network in force |
| `Acceptance.ApplyAccepts` | meta-mncos/recipes-support/mnc-system/files/source/daemon/storage.cpp:329-350 | Without faults apply returns normally exactly when idle, for a valid configuration that keeps the managed name and the network; then it is everywhere, and otherwise nothing has changed |
| `Acceptance.OneFaultIsUndone` | meta-mncos/recipes-support/mnc-system/files/source/daemon/storage.cpp:344-356 | One fault at the preferences or at the SSH policy is undone completely and reported as such |
| `Acceptance.SecondFaultNeedsRecovery` | meta-mncos/recipes-support/mnc-system/files/source/daemon/storage.cpp:348-354 | A second fault at any of the three steps that undo the first is reported as needing recovery |
| `Acceptance.PrepareAccepts` | meta-mncos/recipes-support/mnc-system/files/source/daemon/storage.cpp:403-413 | Without faults prepareNetworkCommit returns normally exactly for the named transaction before its deadline, committing already or proposed for the settings on disk |
| `Acceptance.FinishAccepts` | meta-mncos/recipes-support/mnc-system/files/source/daemon/storage.cpp:414-429 | Without faults finishNetwork returns normally exactly if the transaction is settled that way already, or in flight and to be settled that way by the settings on disk; a cancel that comes too late is answered Busy |
| `Acceptance.PowerAccepts` | meta-mncos/recipes-support/mnc-system/files/source/daemon/storage.cpp:430-443 | power is accepted only when idle and, without faults, always then |
| `Acceptance.ResetAccepts` | meta-mncos/recipes-support/mnc-system/files/source/daemon/storage.cpp:444-461 | resetDevice is accepted only confirmed, idle and with persistent state and data where the product reports them, and without faults always then; each refusal has its own error |
| `Outcomes.BootPromises` | meta-mncos/recipes-support/mnc-system/files/source/daemon/storage.cpp:264-303 | A bootstrap that returns has put in force: the journal's own network, SSH and clock policy, with the default PTP port where it names none; on a first boot those of the boot preferences, which the journal then holds; without any configuration the default clock policy only; after a reset the defaults; and the managed host name, which the journal then holds |
| `Outcomes.StartTakesOver` | meta-mncos/recipes-support/mnc-system/files/source/daemon/storage.cpp:304-312 | For a reset start only arms the reboot, 5000 ms ahead; a device that was never configured takes over what it finds with the network in force, if valid, durably |
| `Outcomes.BeginPromises` | meta-mncos/recipes-support/mnc-system/files/source/daemon/storage.cpp:358-395 | From any reachable state: a normal return of beginNetwork means the proposal is durable, in memory and in force, with the previous network recorded and a deadline 120000 ms ahead; a failure that was undone leaves the previous network configured, journalled and in force |
| `Outcomes.SettlePromises` | meta-mncos/recipes-support/mnc-system/files/source/daemon/storage.cpp:234-245 | From any reachable state: a settlement that returns has the transaction as decided, durably, and its network in force; one that does not leaves the transaction as it was or settled the same way |
| `BackendProcess.Backend.constructor` | meta-mncos/recipes-support/mnc-system/files/source/daemon/storage.cpp:163-177 | From any reachable disk: memory agrees with the journal, is the journal but for a default PTP port where it names none, or the product defaults without a journal, and is sound, with nothing armed |
| `BackendProcess.Backend.Save` | meta-mncos/recipes-support/mnc-system/files/source/daemon/storage.cpp:210-219 | persist: a normal return means the state is in the journal and no power cut brings another back; an exception marks storage as failed and leaves the old or the new one; after a failure nothing is written |
| `BackendProcess.Backend.RequireIdle` | meta-mncos/recipes-support/mnc-system/files/source/daemon/storage.cpp:224-229 | idle: passes exactly without a failed write, transaction, accepted job or intent; then memory is on disk, nothing is armed, and after recovery the configured network is in force |
| `BackendProcess.Backend.Recover` | meta-mncos/recipes-support/mnc-system/files/source/daemon/storage.cpp:246-252 | recoverNetwork: nothing is in flight on a normal return; committed exactly for a committing transaction whose candidate settings are on disk, otherwise the previous network; durable and in force |
| `BackendProcess.Backend.RemoveResetPaths` | meta-mncos/recipes-support/mnc-system/files/source/daemon/storage.cpp:269-270 | the deletion loop of a reset, stopped by the first failure |
| `BackendProcess.Backend.FinishReset` | meta-mncos/recipes-support/mnc-system/files/source/daemon/storage.cpp:265-281 | the reset branch of bootstrap: the intent stays, durable if it was, until everything a reset has to do is done |
| `BackendProcess.Backend.RunBootstrap` | meta-mncos/recipes-support/mnc-system/files/source/daemon/storage.cpp:264-303 | bootstrap: a normal return has recovered the device, with the policies of the journal, of the first boot or of the reset in force; an intent stays until the reset is done |
| `BackendProcess.Backend.RunStart` | meta-mncos/recipes-support/mnc-system/files/source/daemon/storage.cpp:304-323 | start: a normal return is a daemon in a reachable state with nothing in flight; without a reset, a job found accepted is durably interrupted; a reset is armed; a device never configured takes over what is in force |
| `BackendProcess.Backend.Dispatch` | meta-mncos/recipes-support/mnc-system/files/source/daemon/storage.cpp:471-488 | the due job: durably dispatched before its one power call; a throwing call is durably a failure |
| `BackendProcess.Backend.RunTick` | meta-mncos/recipes-support/mnc-system/files/source/daemon/storage.cpp:462-490 | tick keeps the invariant; a due job is carried out by one power call and none is made before; with nothing due nothing changes |
| `BackendProcess.Backend.RunApply` | meta-mncos/recipes-support/mnc-system/files/source/daemon/storage.cpp:329-357 | apply keeps the invariant; all or nothing; without faults accepted exactly when idle, for a valid configuration that keeps name and network |
| `BackendProcess.Backend.RunBegin` | meta-mncos/recipes-support/mnc-system/files/source/daemon/storage.cpp:358-395 | beginNetwork keeps the invariant; accepted only, and without faults always, for a valid proposal made for the settings on disk; a normal return means a durable proposal in force for 120000 ms |
| `BackendProcess.Backend.Transaction` | meta-mncos/recipes-support/mnc-system/files/source/daemon/storage.cpp:396-402 | networkTransaction: the time left is that to the deadline, positive exactly while the transaction is in flight, and at most 150000 ms |
| `BackendProcess.Backend.RunPrepare` | meta-mncos/recipes-support/mnc-system/files/source/daemon/storage.cpp:403-413 | prepareNetworkCommit keeps the invariant; its acceptance without faults is exact; a normal return means the named transaction is committing and no power cut takes that back, the first time with a deadline 30000 ms ahead, later unchanged |
| `BackendProcess.Backend.RunFinish` | meta-mncos/recipes-support/mnc-system/files/source/daemon/storage.cpp:414-429 | finishNetwork keeps the invariant; its acceptance without faults is exact; a normal return means settled as asked in memory, durably and in force, a commit only with the candidate settings on disk; the same call again changes nothing |
| `BackendProcess.Backend.RunPower` | meta-mncos/recipes-support/mnc-system/files/source/daemon/storage.cpp:430-443 | power keeps the invariant; accepted exactly when idle; a normal return means a fresh job durably accepted, due 5000 ms later |
| `BackendProcess.Backend.RunReset` | meta-mncos/recipes-support/mnc-system/files/source/daemon/storage.cpp:444-461 | resetDevice keeps the invariant; accepted exactly confirmed, idle and with persistent state and data; a normal return means an intent that no power cut takes back |
| `AtomicWrite.StateFile.WriteAll` | meta-mncos/recipes-support/mnc-system/files/source/daemon/storage.cpp:52-58 | Short writes and interruptions included, the loop returns only with all bytes written |
| `AtomicWrite.StateFile.Write` | meta-mncos/recipes-support/mnc-system/files/source/daemon/storage.cpp:46-70 | Whatever was possible on disk before: at every point of atomicWrite a reader, and a power cut, meets what was possible or the whole new contents; a normal return means the new contents and no others; otherwise all is as it was or the new contents are in place with the old still possible; a temporary file stays behind an exception only if unlink fails too |
| `AtomicWrite.PersistThrough` | meta-mncos/recipes-support/mnc-system/files/source/daemon/storage.cpp:210-219 | persist through atomicWrite: however the system calls turn out, one fate of Persist gives that ending, that journal and exactly the journals that a power cut may bring back |
| `Storage.Resolve` | meta-mncos/recipes-core/mnc-storage/files/mnc-storage:115-127 | Succeeds unless a label is duplicated anywhere or sits on another disk, kind or filesystem; each role found is the only node with its label |
| `Storage.RolesAreSeparate` | meta-mncos/recipes-core/mnc-storage/files/mnc-storage:115-127 | Different roles resolve to different devices |
| `Storage.Prepare` | meta-mncos/recipes-core/mnc-storage/files/mnc-storage:259-352 | Every trace, complete or cut short by a failure or a crash anywhere, is lawful: no command follows one that did not succeed, nothing is mounted over or deleted through a link, and the status comes when every role has its place and the machine its id; a wanted reset with data in use ends without success and without any mkfs; a boot without faults reaches the published status, with reset_prepared exactly for a wanted reset |
| `Storage.PrepareData` | meta-mncos/recipes-core/mnc-storage/files/mnc-storage:280-322 | The data role: when mounted persistent state carries the intent, success means that mkfs succeeded, data is mounted and every reset tree is gone; a device that is missing, mounted or held is refused before anything is issued |
| `Storage.InUseIsRefused` | meta-mncos/recipes-core/mnc-storage/files/mnc-storage:284-290 | No lawful trace formats a data device that the second look finds missing, mounted, listed twice or held, or publishes a status for that reset |
| `Storage.UnusedExactly` | meta-mncos/recipes-core/mnc-storage/files/mnc-storage:287-290 | The second look passes exactly if the inventory lists the device once, unmounted, and it has no holders |
| `Storage.ClearTrees` | meta-mncos/recipes-core/mnc-storage/files/mnc-storage:316-321 | Success means that every reset tree was deleted and none is a link |
| `Storage.Enumerate` | meta-mncos/recipes-core/mnc-storage/files/mnc-storage:266-272 | The layout taken is that of the first look that is complete, or of the tenth; every look before it misses a role; a misplaced label fails |
| `Storage.ForestIsEverything` | meta-mncos/recipes-core/mnc-storage/files/mnc-storage:109-118 | The nodes searched are exactly those listed or below one that is listed |
| `Storage.Issue` | meta-mncos/recipes-core/mnc-storage/files/mnc-storage:291 | A command is on record either way, as done exactly when it succeeds, and only then does the program go on |
| `Storage.MountRole` | meta-mncos/recipes-core/mnc-storage/files/mnc-storage:292-313 | Success means that the role is mounted from its resolved device or stands on a tmpfs; without faults a resolved role is mounted; no other role is touched |
| `Storage.ReplayIsConfined` | meta-mncos/recipes-core/mnc-storage/files/mnc-storage:280-291 | In a lawful trace at most one mkfs is even attempted, once: on the resolved data device, which is no other role's, for an intent on mounted persistent state, after a second look that lists the device once, unmounted and without holders |
| `Storage.PreparedMeansDone` | meta-mncos/recipes-core/mnc-storage/files/mnc-storage:314-322 | reset_prepared is published only after mkfs of the data device has succeeded, then its mount, and the settings, var-lib, ssh and root-ssh trees, none of them a link, were deleted completely, and nothing issued before it has failed |
| `Storage.MachineIdSurvives` | meta-mncos/recipes-core/mnc-storage/files/mnc-storage:316-332 | No deletion covers the machine-id unless the settings path is os or the file itself |
| `Addresses.ReadIpv4` | meta-mncos/recipes-support/mnc-system/files/source/common/mnc/system/validation.cpp:15-34 | The loop computes Ipv4, a 32-bit number |
| `Addresses.Ipv4Exact` | meta-mncos/recipes-support/mnc-system/files/source/common/mnc/system/validation.cpp:15-34 | Accepted exactly are the canonical dotted decimals with first octet 1..223 other than 127, read as the number they print |
| `Addresses.Ipv4Injective` | meta-mncos/recipes-support/mnc-system/files/source/common/mnc/system/validation.cpp:15-34 | Two texts with the same address are the same text |
| `Addresses.ReadDecimalAddress` | meta-mncos/recipes-support/mnc-system/files/source/common/mnc/system/validation.cpp:38-50 | Accepts exactly four canonical octets |
| `NtpServers.CountWords` | meta-mncos/recipes-support/mnc-system/files/source/common/mnc/system/validation.cpp:56-73 | The counting loop agrees with the grammar of colon-separated groups, an IPv4 tail counting as two |
| `NtpServers.CountExact` | meta-mncos/recipes-support/mnc-system/files/source/common/mnc/system/validation.cpp:56-73 | A part has a count of n exactly when it prints well-formed groups worth n |
| `NtpServers.ReadIpv6` | meta-mncos/recipes-support/mnc-system/files/source/common/mnc/system/validation.cpp:51-78 | Accepts exactly the IPv6address productions of section 3.2.2 of RFC 3986 |
| `NtpServers.ReadHostName` | meta-mncos/recipes-support/mnc-system/files/source/common/mnc/system/validation.cpp:81-92 | Accepts exactly dot-separated labels of 1 to 63 letters, digits and inner hyphens, with an optional final dot |
| `NtpServers.ReadNtpServer` | meta-mncos/recipes-support/mnc-system/files/source/common/mnc/system/validation.cpp:36-93 | Accepts exactly the addresses and host names of at most 253 characters |
| `Validation.MaskMeaning` | meta-mncos/recipes-support/mnc-system/files/source/common/mnc/system/validation.cpp:121-128 | Masking with the prefix mask subtracts, and with its complement gives, the remainder modulo 2^(32-p) |
| `Validation.CheckStatic` | meta-mncos/recipes-support/mnc-system/files/source/common/mnc/system/validation.cpp:116-124 | Accepts exactly addresses that are hosts of their subnet by quotient and remainder |
| `Validation.CheckGateway` | meta-mncos/recipes-support/mnc-system/files/source/common/mnc/system/validation.cpp:125-132 | Accepts exactly a different host with the same quotient by 2^(32-p) |
| `Validation.CheckNetwork` | meta-mncos/recipes-support/mnc-system/files/source/common/mnc/system/validation.cpp:98-136 | Accepts exactly the valid networks: at most eight distinct interfaces, at most one preferred, each valid |
| `Validation.Check` | meta-mncos/recipes-support/mnc-system/files/source/common/mnc/system/validation.cpp:137-162 | Accepts exactly the valid configurations |
| `Validation.ConfigurationExactly` | meta-mncos/recipes-support/mnc-system/files/source/common/mnc/system/validation.cpp:137-162 | A configuration is accepted exactly under the conditions spelled out, apart from its addresses and servers, which have their own grammars |
| `Validation.InterfaceNameExactly` | meta-mncos/recipes-support/mnc-system/files/source/common/mnc/system/validation.cpp:94-97 | Interface names are exactly 1 to 15 letters, digits, underscores and dashes |
| `Validation.HostnameIsLabel` | meta-mncos/recipes-support/mnc-system/files/source/common/mnc/system/validation.cpp:138-142 | A host name is accepted exactly if it is one label of a domain name |
| `Validation.TimezoneStaysBelow` | meta-mncos/recipes-support/mnc-system/files/source/common/mnc/system/validation.cpp:145-152 | An accepted time zone is a relative path without dots, so it stays below the zone directory |
| `JournalPages.MatchesExactly` | meta-mncos/recipes-support/mnc-system/files/source/common/mnc/logging/journal_reader.cpp:148-169 | An entry is admitted exactly if every given criterion holds of it, and, where components or units are listed, its component or its unit is among them |
| `JournalPages.ReadPage` | meta-mncos/recipes-support/mnc-system/files/source/common/mnc/logging/journal_reader.cpp:171-194 | The page is the first matches after the cursor in the wanted direction, up to the limit; an expired strict cursor is an error |
| `JournalPages.PageEdges` | meta-mncos/recipes-support/mnc-system/files/source/common/mnc/logging/journal_reader.cpp:175-182 | Only a strict query whose cursor no entry has is refused; a lenient one finds nothing there; an empty cursor is none; no page is longer than the limit |
| `JournalPages.Progress` | meta-mncos/recipes-support/mnc-system/files/source/common/mnc/logging/journal_reader.cpp:148-194 | A non-empty page ends at an entry, nothing before it was skipped, and its last cursor leads to the position after it |
| `JournalPages.FetchAll` | meta-mncos/recipes-support/mnc-system/files/source/common/mnc/logging/journal_reader.cpp:171-194 | Feeding back the last cursor terminates, and the pages together are the filtered list in order, without gaps, duplicates or errors, in both directions and with strict or lenient cursors |
| `ChangedFields.WriteFields` | meta-mncos/recipes-support/mnc-system/files/source/common/mnc/logging/logging.cpp:109-117 | The writer's loop prints the list as quoted, comma-separated items |
| `ChangedFields.ReadFields` | meta-mncos/recipes-support/mnc-system/files/source/common/mnc/logging/journal_reader.cpp:51-75 | The reader's loop computes Read on every text |
| `ChangedFields.RoundTrip` | meta-mncos/recipes-support/mnc-system/files/source/common/mnc/logging/journal_reader.cpp:51-75 | Every list of at most 64 identifiers of at most 128 characters is read back as written, below the size cut-off |
| `ChangedFields.ReadsExactly` | meta-mncos/recipes-support/mnc-system/files/source/common/mnc/logging/journal_reader.cpp:51-75 | A non-empty list is read exactly from the text written for it, and only if it has at most 64 names of 1 to 128 letters, digits, dots, dashes and underscores |
| `ChangedFields.ReadsOnlyWritten` | meta-mncos/recipes-support/mnc-system/files/source/common/mnc/logging/journal_reader.cpp:51-75 | A text read as a non-empty list is exactly what the writer prints for that list |
| `Services.ServiceManager.Register` | meta-mncos/recipes-support/mnc-system/files/source/common/mnc/service/service_manager.cpp:154-162 | Refused exactly for a taken name or unit |
| `Services.ServiceManager.Handle` | meta-mncos/recipes-support/mnc-system/files/source/common/mnc/service/service_manager.cpp:181-184 | A unit found active is left alone; one found inactive gets one start, after its dependencies were handled; a start that the controller accepts counts as handled, whatever becomes of the job |
| `Services.ServiceManager.StartOne` | meta-mncos/recipes-support/mnc-system/files/source/common/mnc/service/service_manager.cpp:174-185 | Terminates where no service below the first caller leads back to itself; what it adds are the service and its direct or indirect dependencies, in topological order, even when it fails half-way |
| `Services.ServiceManager.StartRegistered` | meta-mncos/recipes-support/mnc-system/files/source/common/mnc/service/service_manager.cpp:187-194 | Started is duplicate-free, topologically ordered and, on success, exactly the dependency closure of the auto-start services, each found active or with its start accepted; at most one start per service, right after the inspection that found it inactive; with a controller that does not throw it succeeds if and only if every name needed is registered |
| `Services.OrderExcludesCycles` | meta-mncos/recipes-support/mnc-system/files/source/common/mnc/service/service_manager.cpp:174-185 | A service in a topological order leads to nothing that comes after it, and not back to itself |
| `Services.OnlyStartableIsOrdered` | meta-mncos/recipes-support/mnc-system/files/source/common/mnc/service/service_manager.cpp:187-194 | What the auto-start services need can be put in order only if none of it leads back to itself, so the condition under which start_registered is proved to end is exact; cycles out of its reach do no harm |
| `ClockDiscipline.EscapeInverts` | meta-mncos/recipes-support/mnc-system/files/source/daemon/ptp.cpp:82-90 | Unescaping an escaped interface name gives the name back |
| `ClockDiscipline.InstanceInjective` | meta-mncos/recipes-support/mnc-system/files/source/daemon/ptp.cpp:82-90 | Distinct pairs of template and interface give distinct unit names |
| `ClockDiscipline.Discipline` | meta-mncos/recipes-support/mnc-system/files/source/daemon/ptp.cpp:75-113 | Succeeds exactly for an available discipline and usable names, with the specified error otherwise, and answers the specified transition |
| `ClockDiscipline.PartitionExactly` | meta-mncos/recipes-support/mnc-system/files/source/daemon/ptp.cpp:98-112 | Stop and start together are all managed units in every mode; they share exactly the NTP units that are also servos |
| `ClockDiscipline.DisjointInEveryMode` | meta-mncos/recipes-support/mnc-system/files/source/daemon/ptp.cpp:98-112 | The lists are disjoint in every mode if and only if the NTP units are disjoint from the PTP and IRIG units |
| `ClockDiscipline.OtherPortsStop` | meta-mncos/recipes-support/mnc-system/files/source/daemon/ptp.cpp:91-107 | Every servo of a port other than the selected one is stopped and not started |
| `ClockDiscipline.Host.Unit` | meta-mncos/recipes-support/mnc-system/files/source/daemon/backend.cpp:82-102 | Succeeds exactly if the unit is in the wanted state already, or its job is accepted and polling shows that state before a failure of a starting unit; then it is active, or inactive or failed; nothing else changed |
| `ClockDiscipline.Host.Preferences` | meta-mncos/recipes-support/mnc-system/files/source/daemon/backend.cpp:377-386 | The units are told exactly the planned stops, with changed servers under NTP the stops of the NTP units too, and the planned starts, in this order, up to the first failure; at every start no managed unit outside the selected family runs, and success leaves exactly the family active; where units comply it succeeds |
| `PayloadTree.WalkIsDeterministic` | meta-mnc-artifact/scripts/mnc-artifact.py:78-88 | The walk is the same for every enumeration order of the same tree, at every level |
| `PayloadTree.WalkIsExact` | meta-mnc-artifact/scripts/mnc-artifact.py:78-88 | A path with these contents and mode is listed exactly when the tree holds it |
| `PayloadTree.WalkListsOnce` | meta-mnc-artifact/scripts/mnc-artifact.py:78-88 | No path is listed twice |
| `PayloadTree.WalkRefuses` | meta-mnc-artifact/scripts/mnc-artifact.py:78-88 | The walk fails exactly for a tree with a symlink or special file |
| `PayloadTree.SortHolds` | meta-mnc-artifact/scripts/mnc-artifact.py:79 | The order of the walk is a sorted permutation of the entries |
| `PayloadTree.LeqExactly` | meta-mnc-artifact/scripts/mnc-artifact.py:79 | Names are ordered by code point: a prefix first, otherwise by the first difference |
| `Artifact.SafePathExactly` | meta-mnc-artifact/scripts/mnc-artifact.py:44-59 | A path is safe exactly if it prints non-empty components that are no dots and hold no separator, backslash, colon or control character |
| `Artifact.ModeExactly` | meta-mnc-artifact/scripts/mnc-artifact.py:74-75 | A mode becomes 0755 exactly if one of the three execute permissions is set, and 0644 otherwise |
| `Artifact.CreatableExactly` | meta-mnc-artifact/scripts/mnc-artifact.py:91-286 | A payload that passes collection is turned down exactly for its labels, an entrypoint that is not an executable file of the tree, or a TFTP root that is unsafe or has no file below it |
| `Text.SplitInverts` | meta-mnc-artifact/scripts/mnc-artifact.py:44-59 | The components of a printed path are the path again |
| `Artifact.Collect` | meta-mnc-artifact/scripts/mnc-artifact.py:91-113 | Succeeds exactly for walkable payloads with safe, unreserved paths, and describes each file found |
| `Artifact.Verify` | meta-mnc-artifact/scripts/mnc-artifact.py:365-427 | Accepts exactly the archives whose envelope, manifest and payload members agree in path, size, mode and digest |
| `Artifact.Create` | meta-mnc-artifact/scripts/mnc-artifact.py:301-362 | An archive is produced exactly when collection and manifest validation succeed; its own verification never refuses |
| `Artifact.CreatedIsAccepted` | meta-mnc-artifact/scripts/mnc-artifact.py:344-357 | The created members are accepted under the created manifest |
| `Artifact.CreationIsDeterministic` | meta-mnc-artifact/scripts/mnc-artifact.py:301-362 | The archive does not depend on the enumeration order of the payload |
| `Artifact.NothingElseArrives` | meta-mnc-artifact/scripts/mnc-artifact.py:401-427 | If no member collides with a different payload file under the digest, every payload member of an archive accepted under a payload's manifest is a file of that payload, with its contents, and 0755 exactly if the file has an execute permission |
| `Artifact.EverythingArrives` | meta-mnc-artifact/scripts/mnc-artifact.py:401-427 | Under the same condition every file of the payload is among the members |

## Left out

- Audit events, actors, request ids, messages and the stored remaining_ms of a transaction: best-effort output that no
  decision reads.
- Link-carrier observation in `tick`, `status`, and the sensor, SYSMON and PTP discovery code.
- The D-Bus, networkd, hostnamed, timedated and logind calls behind `Platform`: each is one effect with a fate. The
  time zone, host name and SSH steps of `Native::preferences` are part of that effect, not of `ClockDiscipline`; so is
  the reload of the network in it, which reapplies what is configured and is a failure point there as here.
- A file that cannot be read (settings, status) is treated like a call that was not made, not as a separate error.
- Error texts, and which of several errors of one code is reported.
- Symbolic links in reset paths, and relative state directories.
- `descendants` and `lsblk` beyond the fields that `resolve` reads; policy fields that `prepare` does not use.
- `reformat`, `backup` and `restore` of mnc-storage, and the journal directory set up on the data partition.
- `JournalReader::read` and `follow` over libsystemd.
- `statuses`, `control` and priority tiers of the service manager; a registry in which an auto-start service leads into a cycle, on
  which the code does not end.
- tar and gzip themselves (name length limits, timestamps), the syntax check of createdUtc, and JSON that is not a
  manifest, which decoding refuses as a whole.
- ResetPaths.AcceptedCovers: speaks of the normal form, because a ".." through a missing directory, where the code
  deletes nothing, depends on directories that are not modelled.
- What becomes of a temporary file that an interrupted write leaves behind.
