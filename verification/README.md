# A verified model of VVMDM's protocols and stores

VVMDM is a self-hosted video library server.  Its correctness rests on a number of small protocols that run
concurrently, survive crashes or keep stateful stores in order.  This project models them in Dafny and proves what
they promise over every interleaving, every run and every input.

| files | models |
|---|---|
| `AutoImportState`, `AutoImport`, `AutoImportProtocol`, `AutoImportInvariant`, `AutoImportTheorems`, `AutoImportPaths`, `AutoImportLosses`, `AutoImportProgress`, `AutoImportCounterexamples` | the auto-importer: dirty directories, quiet timers, the batch in flight, scan starts and finish notices |
| `AutoImportWatching` | the generations of folder watches |
| `DirtyDirectories` | normalising changed directories |
| `KeyedLocks`, `ArtifactLifecycle` | reference-counted locks per key; generation and deletion of artifacts |
| `Builds` | forced rebuilds, crashes and concurrent readers |
| `ThumbnailFiles` | replacing a thumbnail with its poster and record |
| `UndoStore`, `UndoProtocol` | undo tokens and their clients |
| `LoginThrottle`, `ThrottleProtocol`, `Auth` | the sliding-window throttle, its attempts, sign-in and credential changes |
| `Instance` | one instance per machine, over named mutexes |
| `ThumbnailEdits`, `ThumbnailRetries` | edit sessions and retried provider cancellations |
| `VersionJudge` | the judging switch and owed resets |
| `PeerLinks` | connections to peers, their generations and loops |
| `Utf8`, `ChatContext` | fitting a chat into the model's context |
| `FaceFrames` | the lit rectangle of a video's frames, and the window of a face |

`Options` holds the option type.  `dafny verify dfyconfig.toml` checks everything.

## How the model is built

Code that changes fields under a mutex is a class whose methods change those fields in place.  Where several parties
interleave, each critical section is also a function on values; the class is proved to compute exactly that function,
and a step machine interleaves the functions, one step per critical section, kernel call or storage call.  `Run` is a
sequence of states and steps from the initial state, and the main theorems are about every state of every run.  Where a
single call is interleaved with others, its class has a method `Others` that takes any finite number of the others'
steps, and the call's contract holds whatever they do.

Calls into storage, the file system, a provider or the operating system answer through parameters or nondeterministic
choices, so that every failure the code handles is covered.

## What does not hold of the code

Each of these is shown by a concrete run or input and by a theorem that says exactly when it happens.

- The auto-importer can lose a report or a wake-up through seven situations that its code does not guard.  A step of the
  protocol is *safe* when it is in none of them, and `AutoImportLosses.SafeExactly` shows that a step is safe if and
  only if nothing can be lost after it by safe steps.  They are: a start answered as started, or a manual start, without
  a launch while the previous scan's goroutine is closing (`internal/app/scans.go:245-248`); a start that answers an
  error after it launched (`internal/app/scans.go:272-273`); the last holder of scan starts that stops waiting on a
  cancelled context (`internal/app/scans.go:222-226`); a folder change that gives its batch back to an importer
  switched off meanwhile (`internal/app/auto_import.go:328-333`); a watch scan that did not read its batch, because it
  failed, and whose notice is treated like any other (`internal/app/auto_import.go:472-476`); a full scan that
  superseded a watch scan and then does not start (`internal/app/scans.go:161-172`); and one that starts and then fails
  (`internal/app/scans.go:521-534`).  `AutoImportCounterexamples` has a run through each.  Dirty directories that have a
  wake-up are taken all the same: `AutoImportProgress.EverythingIsTaken`, `FinishExactly`.
- Normalising changed directories keeps a covered one when the sort puts it first, as it can with two spellings of a path
  where case is ignored (`internal/domain/scan_scope.go:47-56`, `internal/domain/path.go:10-22`):
  `DirtyDirectories.UnsortedKeepsCovered`.  Coverage does not depend on the order.
- A callback that publishes an artifact and then fails asks for no cleanup (`internal/app/ingest.go:583-585`,
  `internal/app/ingest.go:624-627`): `ArtifactLifecycle.FailureAfterPublishExactly`, `FailureLeaks`.
- Two pointer switches during one read can report a complete artifact missing: `Builds.AnswersExactly`,
  `TwoSwitchesCanMiss`.
- A thumbnail that cannot be moved in after its poster was leaves the new poster beside the old thumbnail and record,
  because a failed publication discards the stash instead of restoring it (`internal/app/ingest.go:398-406`,
  `internal/artifacts/store.go:173-182`), and a crash between publication and recording leaves new files with the old
  record: the contract of `ThumbnailFiles.Content.ReplaceWithFrame` and `ThumbnailFiles.CrashLeaves`.
- OtherSession may be answered although nobody owns the instance any more, or while the owner, of the caller's own
  session, is exiting: `Instance.OtherSessionExactly`, `OtherSessionMayBeAlone`, `OwnSessionMayStillExit`.
- The provider can have two jobs of one video: a submission it accepted can be answered with an error
  (`internal/comfyui/run.go:371-403`), and a cancellation can be given up: `ThumbnailEdits.AtMostOneExactly`,
  `LostAnswerDoubles`.
- A failed recovery is only logged (`cmd/mdm/main.go:268-270`), so pairs that wait for a saved connection can be
  forgotten until one is saved again: `VersionJudge.ForgottenExactly`, `FailedRecoveryForgets`.
- Pairing a node again while its removal is between deletion and drop, or after overlapping removals, leaves the new link
  without a loop until a restart (`internal/app/pairing.go:343-363`): `PeerLinks.NoLoopExactly`,
  `PairedAgainMayHaveNoLoop`, `RemovedTwiceMayHaveNoLoop`.
- Cutting a tool result can make it longer, and the final prompt can exceed the budget by the notes of its cuts:
  `ChatContext.CutGrowsExactly`, and the contract of `ChatContext.TurnLoop.FitContext`.
- The context size reported as needed is one token more than the least that is enough whenever the tokens needed divide
  by three: `ChatContext.NeededExactly`.

## Model

| member | source | states |
|---|---|---|
| `AutoImportTheorems.NoLostWakeUp` | internal/app/auto_import.go:468-609 | In every state of every safe run that is started, enabled and not stopped with dirty directories: a timer's callback is to come, or the active fire will look again because `rerun` is set, or starts are held, or the notice of a scan that runs or is being opened is to come |
| `AutoImportTheorems.NoLostDirectory` | internal/app/auto_import.go:214-256 | In every state of every safe run that is not stopped, each outstanding report is covered by the dirty directories, the active fire's batch, the batch of the running watch scan while it is in flight, or one a holder saved, or is left to a full scan that is to start or has not sent its notice; a fire or scan counts only if it took its batch after the report |
| `AutoImportTheorems.ReportsEndOnlyThen` | internal/app/auto_import.go:468-491 | A report leaves the outstanding ones only by the notice of a watch scan that took it and read all of its batch, by the notice of a full scan that read everything and to which a cut watch scan had left it, or by switching off |
| `AutoImportTheorems.RunKeeps` | internal/app/auto_import.go:519-609 | Every reachable state of a safe run satisfies the whole invariant (timers, fires, batch, running row, holders, wake-ups, reports) |
| `AutoImportTheorems.StartGate` | internal/app/auto_import.go:185-226 | From the return of `holdStarts` to its release, and once `Stop` returned, no fire can open or launch a watch scan |
| `AutoImportTheorems.StoppedForever` | internal/app/auto_import.go:185-212 | After `Stop` returned, no later step of the run opens or launches a watch scan |
| `AutoImportTheorems.BatchIsNotOverwritten` | internal/app/auto_import.go:570-580 | `start` never overwrites a batch that is in flight |
| `AutoImportProgress.EverythingIsTaken` | internal/app/auto_import.go:468-609 | From every reachable state that listens with dirty directories, the parties under way lead by steps of their own alone, none failing, to a state whose timer takes all of them; every one of those steps is safe, but for the notice of a scan that is stranded |
| `AutoImportProgress.FinishExactly` | internal/app/auto_import.go:468-609 | In a reachable state that is on, the parties under way can all finish by safe steps of their own if and only if the scan is not stranded: a failed full scan, or a failed watch scan that no holder is about to supersede, that alone has a report |
| `AutoImportLosses.NeverLoses` | internal/app/auto_import.go:185-609 | From a state with the invariant no sequence of safe steps leads to a lost wake-up or a lost report |
| `AutoImportLosses.SafeExactly` | internal/app/auto_import.go:185-609 | A step from such a state is safe if and only if no sequence of safe steps after it loses a wake-up or a report: every side condition is necessary as well as sufficient |
| `AutoImportLosses.LaunchExactly` | internal/app/scans.go:243-274 | After a launch nothing can be lost if and only if the importer stopped, or the previous scan goroutine has sent its notice and the answer is no error, or starts are held by then |
| `AutoImportLosses.ManualLaunchExactly` | internal/app/scans.go:243-274 | After a manual start nothing can be lost if and only if the importer stopped or no goroutine is still closing |
| `AutoImportLosses.GiveUpExactly` | internal/app/scans.go:211-228 | After a holder stops waiting on a cancelled context nothing can be lost if and only if the importer stopped, no watch scan runs, or another holder still waits for it |
| `AutoImportLosses.RequeueFoldersExactly` | internal/app/auto_import.go:328-334 | After a folder change gave its batch back nothing can be lost if and only if the importer is on or stopped, the batch is empty, or another holder has one to give back |
| `AutoImportLosses.NoticeDropsExactly` | internal/app/auto_import.go:468-491 | A finish notice drops a report unread if and only if its scan did not read what it was to, is neither asked to give its batch back nor superseded by a holder that saved it, no other full scan is to come, and nobody else has the report |
| `AutoImportLosses.FullScanDropsExactly` | internal/app/scans.go:514-559 | A full scan that started drops a report left to it if and only if it failed, no other full scan is to come, and nobody else has the report |
| `AutoImportLosses.StarterFailsExactly` | internal/app/scans.go:158-187 | A full scan that fails to start drops a report if and only if no other is to start or running, the report was left to it, and nobody else has it |
| `AutoImportCounterexamples.DroppedLaunchLoses` | internal/app/scans.go:245-248 | A concrete run in which a start answered as started without a launch loses a report and the wake-up |
| `AutoImportCounterexamples.ErredLaunchLoses` | internal/app/scans.go:270-273 | A concrete run through a launch that answered an error although its scan runs |
| `AutoImportCounterexamples.ManualLaunchLoses` | internal/app/scans.go:245-248 | A concrete run through a manual start that launched nothing |
| `AutoImportCounterexamples.GiveUpLoses` | internal/app/scans.go:222-228 | A concrete run through a holder that stopped waiting |
| `AutoImportCounterexamples.RequeueWhileOffLoses` | internal/app/auto_import.go:328-334 | A concrete run in which a folder change overlapping the switch leaves dirty directories without a wake-up |
| `AutoImportCounterexamples.FailedScanLoses` | internal/app/auto_import.go:468-476 | A concrete run in which a failed watch scan drops the report it took |
| `AutoImportCounterexamples.FailedStartLoses` | internal/app/scans.go:158-172 | A concrete run in which a full start supersedes the watch scan and cannot be stored: the report is dropped |
| `AutoImportCounterexamples.FailedFullScanLoses` | internal/app/scans.go:514-559 | A concrete run in which a full scan superseded the watch scan, started, and failed: the report is dropped |
| `AutoImportModel.SettledSplit` | internal/app/auto_import.go:612-636 | Splits a batch without losing or adding a directory: settled exactly when unreadable, absent, old or future; the wait is the smallest remaining time, at least a second, at most the settle time |
| `AutoImportModel.AutoImport.AddDirtyLocked` | internal/app/auto_import.go:236-251 | In place: dirty becomes the union, each directory once, earlier ones keep their places |
| `AutoImportModel.AutoImport.RequeueLocked` | internal/app/auto_import.go:228-234 | In place: a non-empty batch is dirty again and nothing is in flight; an empty one changes nothing |
| `AutoImportModel.AutoImport.Change` | internal/app/auto_import.go:355-363 | In place: a report is recorded and the quiet timer restarted only while listening |
| `AutoImportModel.AutoImport.BeginFire` | internal/app/auto_import.go:519-541 | In place: stale timers do nothing, a second fire only sets `rerun`, and otherwise the dirty directories are handed over with the finish count of that moment |
| `AutoImportModel.AutoImport.KeepUnsettledLocked` | internal/app/auto_import.go:543-552 | In place: unsettled directories stay dirty and set a timer, while the importer is on |
| `AutoImportModel.AutoImport.CheckStart` | internal/app/auto_import.go:570-585 | In place: the batch goes in flight when starts are allowed, back to dirty under a hold, and is dropped when off |
| `AutoImportModel.AutoImport.RejectStart` | internal/app/auto_import.go:587-609 | In place: a start that failed or was overtaken by a finish notice re-arms the timer; one that met another scan waits for its notice |
| `AutoImportModel.AutoImport.EndFire` | internal/app/auto_import.go:543-568 | In place: clears `batching`, and looks again if a timer fired meanwhile |
| `AutoImportModel.AutoImport.FinishScan` | internal/app/auto_import.go:468-491 | In place: counts the notice, ends or gives back the batch of a watch scan, and re-arms |
| `AutoImportModel.AutoImport.BeginHold` | internal/app/auto_import.go:214-217 | In place: one more holder |
| `AutoImportModel.AutoImport.CloneBatch` | internal/app/auto_import.go:219-221 | The batch in flight, or nothing |
| `AutoImportModel.AutoImport.EndFolderChange` | internal/app/auto_import.go:337-349 | In place: one holder less, and a new timer when directories are dirty |
| `AutoImportModel.AutoImport.CommitOff` | internal/app/auto_import.go:279-310 | In place: switching off empties dirty and inflight, cancels the timer and ends the hold |
| `AutoImportModel.AutoImport.RestoreOn` | internal/app/auto_import.go:311-324 | In place: when the setting could not be saved, the saved batch is dirty again and the timer re-armed |
| `AutoImportWatching.NoStaleInstall` | internal/app/auto_import.go:397-455 | Over all runs: an older generation never installs its watches over those of a newer one |
| `AutoImportWatching.OffMeansUnwatched` | internal/app/auto_import.go:379-464 | Over all runs: once no arming goroutine and no disarm is left, an importer that is off or stopped has no watch |
| `AutoImportWatching.OnKeepsLatestWatches` | internal/app/auto_import.go:379-464 | Over all runs: an importer that is on keeps the watches its latest settled generation installed |
| `DirtyDirectories.Normalize` | internal/domain/scan_scope.go:39-69 | Whatever the order, the result is some of the entries, each once, and covers exactly what they cover; on input that puts a path before the paths inside it, it is the entries no other entry covers |
| `DirtyDirectories.MaximalIsSmallest` | internal/domain/scan_scope.go:38-69 | The entries no other entry covers are a normal form, and contained in every other one |
| `DirtyDirectories.UnsortedKeepsCovered` | internal/domain/scan_scope.go:47-69 | An order in which the result keeps a covered entry, as two spellings of one path can be sorted |
| `DirtyDirectories.CoversMeansReadsMore` | internal/domain/scan_scope.go:21-32 | One entry covers another if and only if its scan reads every file the other scan reads |
| `DirtyDirectories.MaximalKeepsCoverage` | internal/domain/scan_scope.go:38-69 | Dropping covered entries changes no coverage |
| `KeyedLocks.KeyedLockMap.Acquire` | internal/app/artifacts.go:186-199 | In place: finds the key's entry or makes a fresh one, and counts one more user |
| `KeyedLocks.KeyedLockMap.Release` | internal/app/artifacts.go:201-208 | In place: counts one user less and drops the entry with its last user |
| `KeyedLocks.EntryIffUsers` | internal/app/artifacts.go:157-208 | Over all runs: a key has an entry if and only if it has users, the count is their number, and all of them use that one entry |
| `KeyedLocks.AdmitsAsRWLock` | internal/app/artifacts.go:168-184 | Over all runs: an entry admits a waiter if and only if one reader-writer lock for the key would |
| `KeyedLocks.ExclusiveIsAlone` | internal/app/artifacts.go:168-175 | Over all runs: an exclusive holder is the only holder of its key |
| `ArtifactLifecycle.DeletionIsAlone` | internal/app/artifacts.go:42-151 | Over all runs: a lifecycle deletion of a key overlaps neither a generation of the key nor another deletion |
| `ArtifactLifecycle.KindIsExclusive` | internal/app/artifacts.go:42-50 | Over all runs: two generations of one kind of one content never run together |
| `ArtifactLifecycle.NothingLeaks` | internal/app/artifacts.go:94-151 | Over all runs: an unreferenced key with no generation and no deletion left has no file on disk, despite the unlocked early check and a preview whose completion was applied before its content lost its reference |
| `ArtifactLifecycle.FailureAfterPublishExactly` | internal/app/ingest.go:575-589 | A callback that fails after publishing leaks nothing if and only if the key is referenced or another thread will clean it |
| `ArtifactLifecycle.FailureLeaks` | internal/app/ingest.go:575-589 | A concrete run to a state in which such a failure leaks |
| `ArtifactLifecycle.NoDeadlock` | internal/app/artifacts.go:16-20 | No chain of waits returns to a thread already in it, and none is longer than four: the wait-for relation is acyclic |
| `ArtifactLifecycle.GivenUpNeverRuns` | internal/app/artifacts.go:52-73 | Over all runs: once its caller gave up, an acquisition never runs, and its content was unlocked once exactly when only its kind is left to unlock |
| `ArtifactLifecycle.ReleasedOnce` | internal/app/artifacts.go:52-73 | Over all runs: a given-up acquisition that is gone was released by exactly one unlock of its content and one of its kind |
| `Builds.AlwaysGood` | internal/artifacts/builds.go:9-13 | In any history of publications, a pointer that names a complete build names a complete build in every later state |
| `Builds.SurvivesCrash` | internal/artifacts/builds.go:9-13 | A history cut off by a crash at any step is one the same theorems hold of, and its last state names a complete build if an earlier one did |
| `Builds.ReadsNeverMiss` | internal/artifacts/builds.go:98-110 | A read that overlaps at most one pointer switch is never told the artifact is missing, and reads one complete build that was current while it read |
| `Builds.TwoSwitchesCanMiss` | internal/artifacts/builds.go:98-110 | A concrete history with two switches during one read in which a complete artifact is reported missing |
| `Builds.AnswersExactly` | internal/artifacts/builds.go:98-110 | In a window of a history whose replaced builds are removed before the next switch, and by its end, every read is answered if and only if the pointer is switched at most once |
| `Builds.OnePublishOneSwitch` | internal/artifacts/store.go:310-317 | A publication moves the pointer by at most one build, so it switches at most once during a read |
| `Builds.Disk.PublishSeekThumbnails` | internal/artifacts/store.go:270-319 | Every state it passes through keeps the history sound; unforced over a complete sprite it changes nothing; forced it either names the staged next build or leaves the current one untouched |
| `Builds.Disk.PublishPreview` | internal/artifacts/store.go:349-401 | The same for the pair of preview and manifest, verified by digest and published only while the source is current |
| `Builds.Disk.StagePair` | internal/artifacts/store.go:404-457 | The two renames leave a verified pair, or report failure; a failed first rename succeeds only over a verified pair already there |
| `Builds.Disk.Publish` | internal/artifacts/store.go:389-400 | The end of a forced publication: the next build, complete, is current, or the current build is untouched |
| `Builds.Disk.RemoveBuild` | internal/artifacts/builds.go:112-125 | Removes one build file by file, leaving on failure only parts of what was there, and never touches another build |
| `Builds.Disk.RemoveAllBuilds` | internal/artifacts/builds.go:127-157 | When it succeeds no build of the key and no pointer is left |
| `UndoStore.EvictKeepsMost` | internal/app/organizer.go:199-203 | Eviction keeps the longest run of newest entries within both caps, and never the empty one |
| `UndoStore.KeepSound` | internal/app/organizer.go:191-204 | After every keep the entries are in creation order with no token twice, within the caps or one entry, and all unexpired or the kept one |
| `UndoStore.NewestSurvives` | internal/app/organizer.go:183-204 | The newest entry survives every keep |
| `UndoStore.PickExactly` | internal/app/organizer.go:238-281 | A take or hold answers an entry if and only if the store has an unexpired one for the token (and group), and takes nothing else out |
| `UndoStore.LiveMeans` | internal/app/organizer.go:283-292 | Forgetting keeps exactly the unexpired entries |
| `UndoStore.Organizer.ForgetExpired` | internal/app/organizer.go:283-292 | In place: the entries become the unexpired ones and the byte count stays their summed sizes |
| `UndoStore.Organizer.KeepLocked` | internal/app/organizer.go:191-204 | In place: forgets, inserts in creation order and evicts, keeping order, distinct tokens and the byte count |
| `UndoStore.Organizer.TakeLocked` | internal/app/organizer.go:265-272 | In place: takes out exactly what the store has for a released token |
| `UndoStore.Organizer.Hold` | internal/app/organizer.go:240-253 | In place: moves a matching group token from the entries to the held ones |
| `UndoStore.Organizer.Release` | internal/app/organizer.go:256-262 | In place: the held token is an entry again and no longer held |
| `UndoProtocol.SingleUse` | internal/app/organizer.go:157-173 | Over all runs: two undos carried out by the storage never used the same token |
| `UndoProtocol.UndoExactly` | internal/app/organizer.go:160-236 | Over all runs: an undo gets its token if and only if it was kept and is neither used, evicted, expired nor in another client's hands; a rename that holds it only delays the undo |
| `UndoProtocol.StoreAlways` | internal/app/organizer.go:59-74 | Over all runs: entries sorted and within the caps, each token in the store or with one client, and held if and only if a rename has it |
| `UndoProtocol.RenameKeepsExpiry` | internal/app/organizer.go:141-155 | Over all runs: whenever a token is in the store its entry has the creation time the token was first kept with, so renaming does not extend it |
| `LoginThrottle.TouchEvictsIdle` | internal/app/login_throttle.go:124-141 | Touching a source leaves every other one as it was or evicts it, and evicts only sources without reservations |
| `LoginThrottle.TouchBounds` | internal/app/login_throttle.go:123-141 | After a touch that creates a source the table is within its maximum or no larger than the reserved sources and the new one |
| `LoginThrottle.EvictsOldest` | internal/app/login_throttle.go:124-141 | What is evicted was used less recently than every idle source that stays |
| `LoginThrottle.TouchedFirst` | internal/app/login_throttle.go:124-134 | The touched source becomes the newest and the others keep their order, so the list is ordered by last use |
| `LoginThrottle.TouchOk` | internal/app/login_throttle.go:124-141 | Map and list go on holding the same sources, once each |
| `LoginThrottle.Throttle.TouchSource` | internal/app/login_throttle.go:124-141 | In place: moves or creates the source and evicts from the back of the list |
| `LoginThrottle.Throttle.ReserveAttempt` | internal/app/login_throttle.go:62-77 | In place: touches, prunes, and grants or answers the wait |
| `LoginThrottle.Throttle.FailAttempt` | internal/app/login_throttle.go:79-89 | In place: resolves one reservation as a failure |
| `LoginThrottle.Throttle.SucceedAttempt` | internal/app/login_throttle.go:92-106 | In place: resolves one reservation, clears the failures, keeps the source while others are in flight |
| `LoginThrottle.Throttle.CancelAttempt` | internal/app/login_throttle.go:108-121 | In place: resolves one reservation and drops a source with nothing recorded |
| `ThrottleProtocol.NeverOverLimit` | internal/app/login_throttle.go:18-89 | Over all runs: unresolved reservations and failures of the last window of a source never exceed five |
| `ThrottleProtocol.SlidingWindow` | internal/app/login_throttle.go:62-89 | Over all runs: of six consecutive failures of a source the last is a full window after the first, so no window holds six |
| `ThrottleProtocol.ReserveExactly` | internal/app/login_throttle.go:61-77 | Over all runs: an attempt is turned away if and only if unresolved reservations and failures of the last window fill the limit |
| `ThrottleProtocol.PendingIsUnresolved` | internal/app/login_throttle.go:18-34 | Over all runs: the counter is the number of unresolved attempts, and a source with any is in the table |
| `ThrottleProtocol.FailOk` | internal/app/login_throttle.go:79-89 | Trimming never discards a failure |
| `Auth.Auth.Login` | internal/app/auth.go:187-240 | Every return resolves the reservation exactly once: success with a session, failure with wrong credentials, else cancellation; the slot is given back; both answers are characterised exactly |
| `Auth.Auth.ChangeCredentials` | internal/app/auth.go:264-287 | Invalid input reserves nothing; otherwise the reservation is resolved exactly once, as the answer says |
| `Auth.Auth.ReplaceCredentials` | internal/app/auth.go:289-316 | Counted if and only if the current password was verified and wrong |
| `Instance.OneInstance` | internal/desktop/instance.go:38-88 | For any processes, sessions and exits: at most one live process was answered Acquired, and it owns the global mutex |
| `Instance.OwnerIsMarked` | internal/desktop/instance.go:35-53 | Every owner that is not exiting was answered Acquired and holds its session's local mutex |
| `Instance.OtherSessionMeans` | internal/desktop/instance.go:55-59 | OtherSession is answered only when no process of the caller's session, but for an exiting one, owned the global mutex at the check |
| `Instance.OtherSessionExactly` | internal/desktop/instance.go:55-59 | Answered OtherSession, a running process of another session owns the global mutex if and only if any process that is not exiting does |
| `Instance.OtherSessionMayBeAlone` | internal/desktop/instance.go:55-59 | A concrete run in which OtherSession is answered although the instance just exited and nobody owns anything |
| `Instance.OwnSessionMayStillExit` | internal/desktop/instance.go:55-59 | A concrete run in which OtherSession is answered while the exiting owner is of the caller's own session |
| `Instance.AnsweredLeavesNothing` | internal/desktop/instance.go:68-88 | A process with any other answer than Acquired holds no handle |
| `Instance.Kernel.AcquireInstance` | internal/desktop/instance.go:38-88 | The call itself, with any steps of others between its kernel calls: Acquired answers own both mutexes, all others leave nothing |
| `ThumbnailEdits.OneSession` | internal/app/thumbnail_edits.go:299-317 | Over all runs: the two session maps are inverse to each other and each video has at most one live session |
| `ThumbnailEdits.SubmitsAlone` | internal/app/thumbnail_edits.go:361-405 | Over all runs: a provider job is submitted only when the video has no unconfirmed cancellation and no live run |
| `ThumbnailEdits.OneKnownJob` | internal/app/thumbnail_edits.go:361-405 | Over all runs: the process knows of at most one job of a video, live or pending cancellation |
| `ThumbnailEdits.AtMostOneExactly` | internal/app/thumbnail_edits.go:361-405 | All through a run the provider has at most one job of a video if and only if no job of it is sent while an earlier one, whose answer was lost or whose cancellation was given up, is still there |
| `ThumbnailEdits.LostAnswerDoubles` | internal/app/thumbnail_edits.go:391-404 | A concrete run in which a submission accepted with its answer lost is joined by the next one |
| `ThumbnailEdits.OneRetry` | internal/app/thumbnail_edits.go:614-669 | Over all runs: a pending cancellation has at most one retry in flight |
| `ThumbnailRetries.PendingCancels.RetryCancels` | internal/app/thumbnail_edits.go:591-611 | Terminates against any finite interference; when it answers 0 after waiting, the guarded video has no pending cancellation left |
| `ThumbnailRetries.PendingCancels.Claim` | internal/app/thumbnail_edits.go:614-632 | Claims exactly the free matching jobs not tried before and answers exactly those retried elsewhere |
| `ThumbnailRetries.PendingCancels.AttemptAll` | internal/app/thumbnail_edits.go:633-669 | Ends every claim; without a failure none of the claimed jobs is pending for the guarded video |
| `ThumbnailFiles.Content.ReplaceWithFrame` | internal/app/ingest.go:366-424 | Succeeds exactly when the record is new, and then the files are; files and record end all old or all new if and only if they are not torn; every state on the way shows each file whole, old or new, and the record new only last, with both files |
| `ThumbnailFiles.Content.ApplyImage` | internal/app/ingest.go:440-488 | The same for an applied image, whose source is not checked again |
| `ThumbnailFiles.Content.Publish` | internal/artifacts/store.go:150-184 | A failure changes the poster at most; no state on the way shows the new thumbnail without the new poster |
| `ThumbnailFiles.CrashLeaves` | internal/app/ingest.go:366-424 | What a crash on the way leaves is one of exactly four states, never the new thumbnail with the old poster or a new record with an old file; where files and record disagree the poster is the new one |
| `ThumbnailFiles.NewRevisionReadsNewFiles` | internal/app/ingest.go:366-424 | A reader that sees the new revision and reads the files afterwards reads the new ones |
| `VersionJudge.NothingAppliedWhileOff` | internal/app/version_judge.go:218-238 | Over all runs: between a state with judging off and an application of a result, judging was turned on |
| `VersionJudge.ForgottenExactly` | internal/app/version_judge.go:117-173 | Over all runs, with failing resets, recoveries and crashes: pairs waiting for a saved connection have nobody to return them if and only if the recovery of the running process failed and no connection was saved since it started |
| `VersionJudge.ForgottenStays` | internal/app/version_judge.go:117-173 | Over all runs: until a connection is saved again or the process stops, forgotten pairs stay forgotten unless judged anew, and no pair joins them |
| `VersionJudge.NoPairForgotten` | internal/app/version_judge.go:117-173 | Over all runs in which no recovery fails, no pair is forgotten |
| `VersionJudge.FailedRecoveryForgets` | internal/app/version_judge.go:147-158 | A concrete run with a crash before the hook and a failing recovery that forgets a pair |
| `VersionJudge.Judge.Record` | internal/app/version_judge.go:218-251 | With saves and hooks between its reads, each of which may fail on its own: applies only while judging is on, and without a connection only while none is saved; says exactly when it was off or failed |
| `VersionJudge.Judge.ResetOwed` | internal/app/version_judge.go:126-145 | Clears the debt only with no pair left waiting; a failure keeps it owed |
| `VersionJudge.Judge.SaveEnabled` | internal/app/version_judge.go:94-104 | The switch is what was saved once it returns |
| `PeerLinks.OldGenerationsChangeNothing` | internal/app/pairing_connection.go:84-145 | Over all runs: after an interruption, no actor of an older generation changes the state shown or marks the link revoked |
| `PeerLinks.RevokedIsMarked` | internal/app/pairing_connection.go:341-358 | Over all runs: a link is shown revoked only after its node was marked so in the store |
| `PeerLinks.OneLoop` | internal/app/pairing_connection.go:189-203 | Over all runs: a connection has at most one loop in its life, and a node at most one that was not ended |
| `PeerLinks.DroppedStays` | internal/app/pairing_connection.go:63-76 | Over all runs: a dropped connection is not looped again |
| `PeerLinks.NoLoopExactly` | internal/app/pairing_connection.go:189-203 | Over all runs: a stored link with no start to come and no drop under way has no loop if and only if its last look-up found a connection being dropped, between the deletion and the drop of one removal, or one whose loop had returned |
| `PeerLinks.DoomedMeans` | internal/app/pairing_connection.go:45-61 | Over all runs: such a link was doomed by one look-up that found its connection so, and by no later one put right |
| `PeerLinks.PairedAgainMayHaveNoLoop` | internal/app/pairing.go:340-363 | A concrete run in which pairing again between deletion and drop leaves a stored link without a loop |
| `PeerLinks.RemovedTwiceMayHaveNoLoop` | internal/app/pairing.go:341-363 | A concrete run in which two overlapping removals leave a connection whose loop has returned to a link paired later |
| `PeerLinks.Pairing.Revoke` | internal/app/pairing_connection.go:341-358 | With any steps of others in between: an interrupted attempt does nothing, another one marks the store before it shows revoked, and is not interrupted in between |
| `Utf8.CutValid` | internal/app/assistant_context.go:132-135 | Valid UTF-8 cut where a character starts is valid |
| `Utf8.OffsetMeans` | internal/app/assistant_context.go:132-135 | In valid text a character starts at most three bytes before any position |
| `ChatContext.CutIsValid` | internal/app/assistant_context.go:131-137 | A cut result is valid UTF-8, whatever was over |
| `ChatContext.CutTakes` | internal/app/assistant_context.go:131-137 | A cut of valid text takes three bytes a token, or all there is, and at most three more so that no character is split |
| `ChatContext.CutGrowsExactly` | internal/app/assistant_context.go:131-137 | A cut makes a result longer if and only if its note is longer than what that takes |
| `ChatContext.CutsCost` | internal/app/assistant_context.go:116-139 | After the cuts the recomputed tokens are down by what is no longer over, but for the notes' tokens and one a cut |
| `ChatContext.FitKeepsForm` | internal/app/assistant_context.go:57-139 | Every message of the fitted chat but the note is one of the chat with role, calls and images; system message, request and latest round all stay, in order; the latest round is the latest round |
| `ChatContext.FitKeepsText` | internal/app/assistant_context.go:53-139 | A chat of valid UTF-8, fitted with notes of valid UTF-8, is valid UTF-8 |
| `ChatContext.EnglishValid` | internal/app/assistant_context.go:89-137 | The notes of the program are valid UTF-8 |
| `ChatContext.ResultsKeepTheirCall` | internal/app/assistant_context.go:92-114 | Behind the note, the assistant message a result follows is the one it followed before |
| `ChatContext.TurnLoop.ShortenResults` | internal/app/assistant_context.go:70-85 | Shortens old results oldest first, no more than needed; the running total is the recomputed one |
| `ChatContext.TurnLoop.RoundsEnd` | internal/app/assistant_context.go:90-105 | Where removal ends: at the oldest round with which the prompt fits, else at the latest |
| `ChatContext.TurnLoop.DropRounds` | internal/app/assistant_context.go:90-114 | Removes whole rounds oldest first, no more than needed and never the latest; the total is the recomputed one but for an earlier note's cost; the index is the latest round's |
| `ChatContext.TurnLoop.CutLatest` | internal/app/assistant_context.go:116-139 | Cuts a longest result first, only while over, until nothing is over or every result of the round is cut |
| `ChatContext.TurnLoop.FitContext` | internal/app/assistant_context.go:53-87 | A chat within the budget, or without a known budget, is unchanged; otherwise the recomputed prompt exceeds the budget by at most the notes of the cuts, and by what is left over only when every result of the latest round was cut |
| `ChatContext.TurnLoop.LastRoundIndex` | internal/app/assistant_context.go:171-180 | The latest assistant message, or the length |
| `ChatContext.NeededExactly` | internal/app/assistant_context.go:141-162 | The context reported as needed is enough; it is the least one unless the needed tokens divide by three, and then one token too many |
| `FaceFrames.LitBounds` | internal/app/face_video.go:77-109 | The bounds of the lit samples: the zero rectangle if there is none; the three unguarded loops end within the frame |
| `FaceFrames.BoundsAreSmallest` | internal/app/face_video.go:77-80 | Such bounds are the smallest rectangle that holds the samples, and empty if and only if there is none |
| `FaceFrames.UnionBounds` | internal/app/face_video.go:27-33 | The union of the bounds of two sets of samples is the bounds of both together |
| `FaceFrames.FaceVideo.Add` | internal/app/face_video.go:27-33 | After each frame `lit` is the bounds of every frame so far; the picture is the whole square only while nothing was lit |
| `FaceFrames.IsBlack` | internal/app/face_video.go:82-91 | Black if and only if no sample of the rectangle is above the black level |
| `FaceFrames.PlaceMeans` | internal/app/face_video.go:115-127 | A window lies in the picture, is as large as asked unless the picture is smaller, and is as near to its centre as can be |

## Left out

- NoLostWakeUp, NoLostDirectory, StartGate and the other run theorems of the importer: stated of safe runs; `SafeExactly` shows that no weaker condition on single steps would do.
- EverythingIsTaken, FinishExactly: show that the continuation exists, not that the parties take it within a time; a switch that is being turned off is taken to fail, as otherwise everything is off.
- NothingLeaks: storage and file calls succeed; what failing after a publication does is `FailureAfterPublishExactly`.
- DeletionIsAlone: about lifecycle deletion only; removing a virtual video's thumbnail deletes files under the shared lock.
- NoDeadlock: a Go RWMutex is modelled with at most one announced writer, behind which later readers wait; fairness is not modelled.
- ReadsNeverMiss, AnswersExactly: for readers that overlap no removal of the whole key; the second is stated of histories whose replaced builds are removed before the next switch.
- RetryCancels: the other requests between its steps are finite in number; without that bound the code itself need not return.
- SlidingWindow: the clock of successive calls does not go back, and the log of a source starts again when the source is evicted or signs in.
- ResultsKeepTheirCall: for a chat from which rounds were removed; otherwise the chat keeps all its messages, as `FitKeepsForm` says.
- The importer's watch status and problem reports, and retrying lost watches: display state beside the protocol.
- A scan whose final record cannot be written: the row is taken to close.
- Sorting of changed directories and of tool results: the library sort is an ordered input, or a choice of a longest element with ties in any order.
- Cleaning of paths: a path is its sequence of cleaned elements, folded where the system ignores case; two spellings of one path are one directory.
- Watches, timers and retries are never shown to happen within a time: there is no wall clock.
- Undo tokens, edit session ids, job ids and process ids are fresh; their randomness is not modelled.  The 128-bit token encoding is not modelled.
- Digests are taken to identify their content; manifests and sprite descriptions are values, not JSON.
- A sprite directory is published by one rename, so its sheets and its description are one pair of files in `Builds`.
- Source records of the throttle and pending cancellations are values in a map the methods reassign, so sharing of a record between the map and a caller is not modelled.
- Edit sessions are modelled on values: the locks, maps and run of a session, but not its frame, result, time limits or polling.  A confirmed cancellation is taken to have ended the job.
- Throttle keys of addresses: mapping an address to its bucket is a prefix function of a library.
- Password hashing, timing concealment, HTTP, SQLite, ffmpeg, Win32, Ollama and ComfyUI clients, image codecs and JSON shapes: foreign code.
- droppedResult: a parameter of the model, used only for the length of what it returns; its JSON is not modelled.
- Image coordinates of a face window are computed over reals, not floating point.
- Tracking of faces, crops, and which face is the best one; the rest of the assistant, the settings services and the job queue: easier or dependent on code outside these files.
- Judging itself: only when a result may be recorded is modelled, not how it is decided.
- Folder snapshots, event streams, certificates and retry delays of peers: a connection is its status, generation, revocation lock and loop.
- A removal of a peer link is modelled from the connection it holds; telling the peer and the retries of a loop are not.
