# Verification of the Connect control protocols

Document Summarizer keeps several small protocols whose state must survive crashes: the package operation controller,
the background-mode transition, the OCR handoff, licence installation, and, in memory, the registry of desktop workers.
This project models them in Dafny and proves what they keep in every run.

## How the model is built

Each protocol has a *world*, the durable and external state, and one predicate per *step*: a durable write, an effect
on a user, a call to a provider, or an event of the machine. A run is any sequence of steps. A crash needs no step of
its own where nothing but the world survives; where a process has memory that matters, losing it is a step.

Beside each transition system stands a class whose methods are the actions, statement for statement. Every write and
effect of a method is shown to be a step, appended to a ghost run, and any of them may report a failure before or after
it took hold. A returned error therefore stands for a crash at that point as well, and what is proved of runs holds of
every sequence of calls. The constant `faulty` switches such failures off: contracts of the form "without faults, it
succeeds exactly if ..." say from which states an action ends. The package actions also say that a failed attempt
leaves such a state behind, so that repeating an action brings it to its end (`PackageController.Perform`). With
`drifting` set as well, users log in and out, acknowledge, and start and lose their providers before every effect on a
user and before what it came to is written down; the guards of all steps, and what an action does if it succeeds, are
proved under it. When exactly it succeeds and that it can be repeated is said of users at rest. What a login can spoil,
and what a logout brings back, is stated exactly in `PackageSessions`.

| file | contents |
|---|---|
| `PackageTypes`, `PackageWorld`, `PackageInvariant`, `PackageRuns` | the package operation controller as a transition system, its invariant, theorems on runs |
| `PackageStuck` | when a reinstall can end |
| `PackageSessions` | what users coming and going do to an operation in progress |
| `PackageWitness` | runs from a fresh machine into each of the states in which the protocol fails its users |
| `PackageConditions` | from which states its actions succeed, what they leave, and that a failure spoils nothing |
| `PackageControl`, `PackageActions`, `PackagePurge`, `PackageController` | preparing and finishing, the actions built on them, purging, the entry point |
| `PackageSuccess` | from which states the actions succeed, once more, by fields alone |
| `PackageAdmission` | job and startup admission against the controller, lock by lock |
| `QuiesceRecord`, `TextLines` | the quiesce intent as text, printed and parsed |
| `Lifecycle`, `LifecycleControl`, `LifecycleAdmission` | the background-mode transition, its store, its locks |
| `LaunchEnvironment` | quoting, rendering and renewing the launch files |
| `OcrContent`, `OcrHandoff`, `OcrRunner`, `OcrIntake` | OCR of a scanned document: what is exchanged, the handoff, its runner, and who comes back to it |
| `WorkerRegistry` | claims, workers and reservations over one map |
| `DeliveryPrefix`, `Entitlement`, `Identifiers` | the delivered prefix of a summary, licences, identifiers |
| `Runs`, `Faults` | runs of any transition system, failures |
| `Wrappers`, `Integers`, `Text` | options, results, 64-bit numbers, character classes |

## What the model assumes

- Files are replaced by rename, so a write is one step. A string stands for its UTF-8 bytes.
- A generation is never drawn twice: a new one is not among those issued before.
- A provider registers only when startup admission lets it in, and counts as the successor only where the manager is
  enabled. While a package record is there only the controller changes managers; while a background transition is on
  record only its own effects do.
- While an action announces, discovers, purges or clears, users are at rest; before each effect on a user, before each
  write that follows from one, and between actions they come and go. Whoever releases its locks for a restore is a
  controller holding the controller lock.
- One runner works on an OCR handoff at a time, which `WorkerRegistry` provides for; the clock advances in every turn.
  A submission is taken by the provider before the call returns or not at all.
- The digest of an intent is a function printing 64 lower-case hexadecimal digits; digests, JSON, base64 and page counts
  in an OCR handoff, the serialized size of a result and the opening of a licence are parameters.

## What the proofs show about the code

Each point names the lemma that says exactly when it happens and the run that gets there.

- Finishing does not clear a quiesce intent. A removal that completed while an intent of its generation lingered can
  still be rolled back once its receipt is gone, and only then (`PackageRuns.LingeringIntentRevivesGeneration`,
  `PackageWitness.CompletedRemovalRolledBack`). A pending intent also keeps out the successor of an enabled, logged-in
  user, so finishing then fails (`PackageControl.PackageStore.Finish`, `PackageWitness.SuccessorKeptOut`).
- An upgrade does not rewrite the install receipt of an earlier reinstall. Removing and reinstalling after it never
  ends, whatever is done (`PackageStuck.ReinstallEndsUnlessStuck`, `PackageWitness.StuckReached`).
- Preparing while a record is there and no intent is pending fails and leaves its new intent behind, even for the
  operation on record (`PackageControl.PackageStore.PrepareAnnounced`, `PackageWitness.LeavesIntentReached`). If the
  record is a rollback or a purge, no action can make progress any more (`PackageController.Perform`,
  `PackageWitness.WedgedReached`).
- A user not yet settled who logs in again under another runtime directory than the recorded one makes every attempt
  to prepare or finish the operation fail until logging out (`PackageSessions.LoginKeepsPreparable`,
  `PackageSessions.LoginKeepsFinishable`, `PackageSessions.PreparableAfterLogout`, `PackageWitness.StrandedByLogin`).
- A rollback never stops the registered provider of a user recorded as disabled; such a user makes it fail
  (`PackageActions.TurnedBackFinishable`, `PackageWitness.DisabledButRegistered`).
- Finishing a reinstall whose preparation was cut short before the controller was handed over leaves the removal's
  controller file behind (`PackageRuns.ControllerHandover`, `PackageWitness.ControllerLeftBehind`).
- A purge intent encodes but does not read back (`QuiesceRecord.RoundTrip`).

## Model

| member | source | states |
|---|---|---|
| `PackageInvariant.StepKeepsInv` | src-tauri/src/connect/package_control.rs:887-1002 | every durable write, effect and machine event keeps the controller's whole invariant: users, record shape, settlements, quiet phases, receipts, controller files, history |
| `PackageRuns.RunKeepsInv` | src-tauri/src/connect/package_control.rs:678-773 | every state of every run, however often it is cut short and resumed, satisfies that invariant |
| `PackageRuns.RecordsAreWellFormed` | src-tauri/src/connect/package_control.rs:1605-1632 | in every run a record lists users once, in uid order, with device and inode together or neither; only a removal is turned back, and only from settling on; exactly a reinstall names a predecessor |
| `PackageRuns.ReceiptsAreWellFormed` | src-tauri/src/connect/package_control.rs:1520-1566 | in every run the users of a receipt are listed once, in uid order, with device and inode together or neither, and those of a removal are all disabled |
| `PackageRuns.OperationIsStable` | src-tauri/src/connect/package_control.rs:907-973 | until a record is cleared, its generation, versions, users and recorded choices never change, a settlement once made is final, a rollback stays one, and a removal may only become a purge |
| `PackageRuns.NoEffectAfterSettlement` | src-tauri/src/connect/package_control.rs:911-973 | a user whom an upgrade, a reinstall or a rollback has settled is not touched by any effect until the operation ends |
| `PackageRuns.RestoredWhenCleared` | src-tauri/src/connect/package_control.rs:887-1002 | when the record of an upgrade, a reinstall or a rollback is cleared, every user's manager holds the recorded choice, whatever crashes and re-runs came before |
| `PackageRuns.ForwardRemovalNeverRestores` | src-tauri/src/connect/package_control.rs:1044-1112 | while a removal or a purge goes forward no restore effect runs, and no user becomes enabled or registered |
| `PackageRuns.RolledBackIsNeverReceipted` | src-tauri/src/connect/package_control.rs:775-836 | a generation once rolled back never has a removal receipt again and its record is never anything but a rollback, so it is never finished forward or purged |
| `PackageRuns.CompletionExcludesRollback` | src-tauri/src/connect/package_control.rs:704-719 | if an operation is finished only after its preparation has withdrawn the intent, no generation both writes a removal receipt and is rolled back, in either order |
| `PackageRuns.LingeringIntentRevivesGeneration` | src-tauri/src/connect/package_control.rs:975-1002 | without that discipline the exclusion fails exactly when a removal intent of the completed generation is still pending: then, and only then, the generation can still be rolled back |
| `PackageWitness.LingeringIntentReached` | src-tauri/src/connect/package_control.rs:975-1002 | from every fresh machine without users, for any two generations and any version, there is a run of removal and reinstall that ends with the receipt gone and the removal's intent still pending |
| `PackageWitness.CompletedRemovalRolledBack` | src-tauri/src/connect/package_control.rs:617-828 | that run goes on to roll back the generation that had a receipt, so the exclusion does fail without the discipline |
| `PackageStuck.ReinstallEndsUnlessStuck` | src-tauri/src/connect/package_control.rs:1459-1487 | from any reachable state with a reinstall on record there is a run that ends it exactly if no install receipt of an earlier generation names another version than the one being reinstalled |
| `PackageStuck.StuckForever` | src-tauri/src/connect/package_control.rs:1459-1487 | where there is such a receipt, no step of the controller or the machine, in any number, ends the reinstall or changes that |
| `PackageStuck.StepKeepsStuck` | src-tauri/src/connect/package_control.rs:1459-1487 | one step keeps a stuck reinstall stuck, and it is not the one that clears the record |
| `PackageWitness.StuckReached` | src-tauri/src/connect/package_control.rs:1353-1487 | removing and reinstalling, upgrading, and removing and reinstalling again, each operation prepared, withdrawn, handed over and finished in turn, gets stuck for good, from every fresh machine without users |
| `PackageWitness.ControllerLeftBehind` | src-tauri/src/connect/package_control.rs:1404-1438 | a reinstall whose handover was cut short ends, everything else done, with the removal's controller still there |
| `PackageWitness.WedgedReached` | src-tauri/src/connect/package_control.rs:549-579 | a removal turned back and interrupted, followed by a request for another, wedges the machine |
| `PackageWitness.LeavesIntentReached` | src-tauri/src/connect/package_control.rs:549-635 | an operation prepared without any failure is one over which preparing again leaves an intent behind |
| `PackageWitness.SuccessorKeptOut` | src-tauri/src/connect/package_control.rs:1824-1835 | an upgrade prepared over an enabled, logged-in user cannot be finished while its intent is pending, and can once it is withdrawn |
| `PackageWitness.StrandedByLogin` | src-tauri/src/connect/package_control.rs:2730-2768 | a user who logs out and in again under another runtime directory makes an operation that could be prepared one that cannot, until the next logout |
| `PackageWitness.DisabledButRegistered` | src-tauri/src/connect/package_control.rs:2468-2495 | a user who disabled the provider and started it all the same makes a removal that is turned back one that cannot be finished, until the provider ends |
| `PackageRuns.ForgottenForever` | src-tauri/src/connect/package_control.rs:549-579 | a generation that no record, intent or receipt carries never comes back, and is never rolled back later |
| `PackageRuns.ChoicesAlwaysTraced` | src-tauri/src/connect/package_control.rs:1353-1402 | in every run from a fresh machine, each removal, receipt, reinstall and install receipt names exactly the users and choices found when the removal began |
| `PackageRuns.ReinstallRestoresRemovedChoices` | src-tauri/src/connect/package_control.rs:975-1551 | removal followed by reinstall, each crashed and resumed at will, ends with the removal receipt gone and an install receipt that links to the removal and names the users and choices found then, which the managers now hold |
| `PackageRuns.ControllerHandover` | src-tauri/src/connect/package_control.rs:1404-1438 | during a reinstall the removal's controller file is there until the one move to the reinstall's name, and stays behind exactly if that move never happened |
| `PackageRuns.StepKeepsReceiptedSettled` | src-tauri/src/connect/package_control.rs:1440-1457 | a generation with a receipt survives only in its own record that settles, finalizes or purges |
| `PackageWorld.InsertByUid` | src-tauri/src/connect/package_control.rs:2405-2410 | inserting a discovered user keeps the list in uid order and adds exactly that user |
| `PackageWorld.DiscoveryExists` | src-tauri/src/connect/package_control.rs:2349-2410 | whatever the acknowledgements, there is a uid-ordered list with each user once, pending, with the acknowledged choice |
| `PackageSessions.SessionsKeepGuards` | src-tauri/src/connect/package_control.rs:646-676 | however long users come and go between two steps, the managers keep their choices, and while an operation lets no provider in nobody who was stopped is registered again |
| `PackageSessions.LoginKeepsPreparable` | src-tauri/src/connect/package_control.rs:645-662 | an interrupted preparation can still be taken up after a login exactly if the user comes back to the recorded runtime directory or none is recorded |
| `PackageSessions.LoginKeepsFinishable` | src-tauri/src/connect/package_control.rs:906-986 | an operation can still be finished after a login exactly if that user is settled, or comes back with no intent in the way of the successor and no receipt that says otherwise |
| `PackageSessions.PreparableAfterLogout` | src-tauri/src/connect/package_control.rs:645-662 | after a user's logout an interrupted preparation can be taken up exactly if no other user stands in the way |
| `PackageSessions.FinishableAfterLogout` | src-tauri/src/connect/package_control.rs:906-986 | after a user's logout an operation can be finished exactly if no other user and no receipt of an earlier operation stands in the way |
| `PackageSessions.LogoutUndoesLogin` | src-tauri/src/connect/package_control.rs:906-986 | logging in and out again leaves everything as it was |
| `PackageControl.PackageStore.Commit` | src-tauri/src/connect/package_control.rs:455-491 | a durable write either takes hold in full or not at all, and may report a failure either way |
| `PackageControl.PackageStore.Stop` | src-tauri/src/connect/package_control.rs:2412-2436 | only the user's registration may go; it fails exactly on untrusted directories when nothing else fails; afterwards the user has no registration |
| `PackageControl.PackageStore.Suppress` | src-tauri/src/connect/package_control.rs:2564-2570 | only the user's enablement may go, and it is gone if the effect passed |
| `PackageControl.PackageStore.Cleanup` | src-tauri/src/connect/package_control.rs:2572-2594 | changes nothing and passes only if the user has no registration |
| `PackageControl.PackageStore.RecoverPending` | src-tauri/src/connect/package_control.rs:2468-2495 | reports a ready successor, a registration to stop, or nothing, as the user's state says |
| `PackageControl.PackageStore.ConfirmRestored` | src-tauri/src/connect/package_control.rs:2497-2562 | passes exactly if the directories are trusted and the manager and the registration agree with the settlement |
| `PackageControl.PackageStore.Restore` | src-tauri/src/connect/package_control.rs:2438-2466 | applies the recorded choice to this user only and returns the settlement that fits; an enabled, logged-in user needs startup admission to be open |
| `PackageControl.PackageStore.RestoreUnlocked` | src-tauri/src/connect/package_control.rs:931-966 | with both locks released users come and go and other writers may replace the record; a settlement is returned only if the record read back is the one released, and where every writer holds the controller lock the record is never changed |
| `PackageControl.PackageStore.SettleUser` | src-tauri/src/connect/package_control.rs:919-966 | a user is settled with what was confirmed, or as disabled when nothing is restored; without faults it succeeds exactly for settleable users, and no other user is touched |
| `PackageControl.PackageStore.SettleParticipant` | src-tauri/src/connect/package_control.rs:907-973 | one turn records the runtime directory if it was missing, settles exactly this participant, and leaves every other as it was |
| `PackageControl.PackageStore.SettleAll` | src-tauri/src/connect/package_control.rs:906-974 | the loop settles every pending participant and nothing else of the record; it succeeds without faults exactly if every pending user is settleable |
| `PackageControl.PackageStore.WriteRemovalReceipt` | src-tauri/src/connect/package_control.rs:1440-1457 | the receipt becomes exactly the one of this record, or was already; any other receipt is a conflict and stays |
| `PackageControl.PackageStore.WriteInstallReceipt` | src-tauri/src/connect/package_control.rs:1459-1487 | the receipt becomes exactly the one of this record; an older one is replaced only if it installed the version this reinstall started from |
| `PackageControl.PackageStore.RetireController` | src-tauri/src/connect/package_control.rs:2659-2680 | removes the controller of this generation and nothing else |
| `PackageControl.PackageStore.ConsumeRemovalReceipt` | src-tauri/src/connect/package_control.rs:1536-1551 | removes the receipt this reinstall followed, and passes if it is gone already |
| `PackageControl.PackageStore.ClearOperation` | src-tauri/src/connect/package_control.rs:975-1002 | retires the controller of a restored operation, consumes the receipt of a reinstall, then clears the record, leaving all else as it was |
| `PackageControl.PackageStore.ReachFinalizing` | src-tauri/src/connect/package_control.rs:897-986 | a record whose users are stopped reaches the final phase with the same choices, only the record and the receipt it owes having changed, exactly if its users can be settled and the receipt written |
| `PackageControl.PackageStore.Finish` | src-tauri/src/connect/package_control.rs:887-1002 | completes the operation on record (choices restored or receipt written, controller retired or kept, record cleared) exactly on the states described by Finishable; it passes only over a record of the kind and the target version asked for, and refuses any other untouched; afterwards every listed user is enabled exactly as recorded, or, after a removal, neither enabled nor registered; cut short anywhere, with users at rest, it leaves an operation that can still be finished or is complete |
| `PackageControl.PackageStore.Complete` | src-tauri/src/connect/package_control.rs:887-1002 | the same for a record already found to be the right one; if the record is gone, everything completing it promises holds |
| `PackageControl.PackageStore.SettleToFinal` | src-tauri/src/connect/package_control.rs:906-986 | settling, receipt and final phase, in that order; a failure leaves it as finishable as before |
| `PackageConditions.TurnKeepsFinishable` | src-tauri/src/connect/package_control.rs:907-973 | a turn of the settling loop cut short at any point leaves the operation as finishable as before |
| `PackageControl.PackageStore.Discover` | src-tauri/src/connect/package_control.rs:2349-2410 | returns each acknowledged user once in uid order, exactly if every acknowledged directory that must be there is the acknowledged one and nobody is in the middle of a background transition |
| `PackageControl.PackageStore.StopParticipant` | src-tauri/src/connect/package_control.rs:647-661 | stops and disables one user, who then has neither registration nor enablement, though others come and go meanwhile |
| `PackageControl.PackageStore.StopEach` | src-tauri/src/connect/package_control.rs:646-662 | the loop leaves every user neither enabled nor registered, whoever logs in or out between its effects; only runtime directories advance in the record; without faults it succeeds exactly if every user can be stopped |
| `PackageControl.PackageStore.StopEverybody` | src-tauri/src/connect/package_control.rs:645-676 | records that everybody is stopped only once everybody is, and users coming and going in between cannot undo that |
| `PackageControl.PackageStore.PrepareController` | src-tauri/src/connect/package_control.rs:2610-2657 | there is a controller file of this generation afterwards, and no other change |
| `PackageControl.PackageStore.PrepareRecord` | src-tauri/src/connect/package_control.rs:636-676 | writes a new record before touching anybody, and touches nothing but record, controller and the users it stops |
| `PackageControl.PackageStore.PrepareFromIntent` | src-tauri/src/connect/package_control.rs:617-676 | prepares exactly the operation the intent announces, resuming a record of the same generation, kind and versions that goes forward; a record that differs in any of these is refused untouched; succeeds without faults exactly on the states described by Preparable, and with users at rest every failure leaves such a state such |
| `PackageControl.PackageStore.RecordOf` | src-tauri/src/connect/package_control.rs:617-645 | the record on disk exactly if it is the announced operation, or else a new one over everybody found |
| `PackageControl.PackageStore.PrepareFound` | src-tauri/src/connect/package_control.rs:636-676 | carries that record to stopped users; a new one lists everybody who had acknowledged |
| `PackageControl.PackageStore.Prepare` | src-tauri/src/connect/package_control.rs:838-885 | the form without an intent: a record being rolled back, or of another kind or target version, is refused untouched, one of the same operation is carried to stopped users; it succeeds exactly on the states described by Resumable |
| `PackageControl.PackageStore.EnsureQuiesceIntent` | src-tauri/src/connect/package_control.rs:549-579 | finds the pending intent of the same operation or durably announces a new one; anything else pending is a conflict |
| `PackageControl.PackageStore.ClearQuiesce` | src-tauri/src/connect/package_control.rs:446-453 | withdraws the intent exactly if it is of this generation |
| `PackageControl.PackageStore.PrepareAnnounced` | src-tauri/src/connect/package_control.rs:506-547 | announce, prepare, withdraw: succeeds exactly on the states described by Announceable, and then, unless it resumed a record, everybody who had acknowledged is neither enabled nor registered; over any record with no intent pending it fails and leaves its new intent behind; a failure elsewhere leaves it announceable, or prepared and withdrawn; a removal begun where no disabled user is registered can be turned back whatever became of it |
| `PackageControl.PackageStore.PrepareAndWithdraw` | src-tauri/src/connect/package_control.rs:517-523 | prepares what is announced and withdraws the announcement, in that order |
| `PackageControl.PackageStore.AnnounceAndPrepare` | src-tauri/src/connect/package_control.rs:506-547 | what announcing and preparing come to, said of the state in which the intent is pending: it succeeds exactly if the intent is of the operation asked for and can be prepared |
| `PackageControl.PackageStore.KeepOperation` | src-tauri/src/connect/package_control.rs:636-645 | the record is on disk before the controller file, and nothing else changes |
| `PackageConditions.LaterParticipantsUnaffected` | src-tauri/src/connect/package_control.rs:907-973 | settling one participant neither helps nor hinders any later one |
| `PackageConditions.ExactRemovalFits` | src-tauri/src/connect/package_control.rs:1440-1457 | the stored receipt fits the settled record exactly if it is absent or equal to the one the record would write |
| `PackageActions.AbortRemove` | src-tauri/src/connect/package_control.rs:775-836 | turns a removal back from any point before it settles and restores every recorded choice, including users never stopped; succeeds without faults exactly on the states described by Abortable; a removal with a receipt, another announced operation or another version is refused untouched; an abortable state stays abortable through every failure |
| `PackageActions.WithdrawRemoval` | src-tauri/src/connect/package_control.rs:806-828 | the turn is durable before the intent is withdrawn, and both leave an abortable state abortable |
| `PackageActions.RecordRollback` | src-tauri/src/connect/package_control.rs:806-824 | makes the turn durable once, keeping generation and users |
| `PackageActions.TurnedBackFinishable` | src-tauri/src/connect/package_control.rs:815-836 | a removal turned back can be finished exactly if its users can be restored, and a user recorded as disabled who still has a registration cannot |
| `PackageActions.PrepareReinstall` | src-tauri/src/connect/package_control.rs:1353-1402 | starts or resumes reinstalling exactly what the removal receipt names, and hands the controller over; otherwise touches nothing; a failure leaves it as preparable as before |
| `PackageActions.AdoptReinstallController` | src-tauri/src/connect/package_control.rs:1404-1438 | afterwards the controller exists under the reinstall's name only |
| `PackageActions.CompleteRemoval` | src-tauri/src/connect/package_control.rs:743-758 | an interrupted removal is carried to a receipt with its own generation and choices, exactly if it goes forward, its users can be stopped or settled and a stored receipt fits; a failed attempt leaves it completable or complete; one being rolled back is refused untouched |
| `PackageConditions.StoppingKeepsCompletable` | src-tauri/src/connect/package_control.rs:646-676 | stopping a removal's users, however far it gets, leaves the removal as completable as before; once all are stopped that is exactly whether a stored receipt fits |
| `PackageConditions.StoppedRemovalFinishable` | src-tauri/src/connect/package_control.rs:887-1002 | a removal whose users are stopped can be finished exactly if its receipt is free or fits |
| `PackageActions.PrepareReinstallAction` | src-tauri/src/connect/package_control.rs:741-770 | a reinstall prepared over an interrupted removal names that removal's generation and choices; it succeeds exactly on the states described by ReinstallRequestable, which every failure keeps; upgrades, purges and rollbacks are refused untouched |
| `PackageActions.AdoptBootstrap` | src-tauri/src/connect/package_control.rs:581-615 | an adopted bootstrap has its record prepared, its quarantined executable gone and its intent withdrawn, exactly on the states described by BootstrapAdoptable; a failure leaves it adoptable, or adopted |
| `PackageActions.CompleteAdoption` | src-tauri/src/connect/package_control.rs:597-615 | adoption is durable before the quarantine is deleted, and the intent goes last |
| `PackagePurge.FinishPurge` | src-tauri/src/connect/package_control.rs:1004-1124 | ends with nothing left exactly from the states described by Purgeable; every interrupted attempt leaves such a state behind; what it does not accept it does not touch; an unknown entry of the package root, a foreign or second controller among them, stops it before anything is deleted |
| `PackagePurge.PurgeSettledState` | src-tauri/src/connect/package_control.rs:1294-1351 | deletes users, receipts, record, controller in that order and only if the root holds nothing unknown |
| `PackagePurge.ChoosePurge` | src-tauri/src/connect/package_control.rs:1009-1084 | picks the record on disk, one made from the receipt, or one made from the intent, and accepts exactly the agreeing combinations, touching nothing |
| `PackagePurge.StopForPurge` | src-tauri/src/connect/package_control.rs:1085-1101 | marks the purge before any effect and stops the users; it stays accepted, and with users at rest this neither gains nor loses purgeability |
| `PackagePurge.PreparePurge` | src-tauri/src/connect/package_control.rs:1085-1104 | marking, stopping and withdrawing the intent succeed and leave a purgeable state exactly from a purgeable state |
| `PackagePurge.FinalizePurge` | src-tauri/src/connect/package_control.rs:1105-1119 | every user is re-checked before the purge becomes final; passes exactly if every directory is trusted |
| `PackagePurge.PurgeOperation` | src-tauri/src/connect/package_control.rs:1085-1120 | the whole purge of one removal, from whatever point it had reached, ends exactly from purgeable states |
| `PackagePurge.RemnantStaysPurgeable` | src-tauri/src/connect/package_control.rs:1330-1351 | whatever a purge has deleted so far, the same purge can still be carried to its end |
| `PackagePurge.RootKnownIsPurgeable` | src-tauri/src/connect/package_control.rs:1294-1329 | for an accepted, final purge the root check passes exactly on purgeable states |
| `PackageController.Perform` | src-tauri/src/connect/package_control.rs:678-773 | each action succeeds without faults exactly from the states of Performable; finishing passes only over a record of the action's kind and version; a durable purge or rollback refuses every other finishing action untouched; a wedged state is never left and no action succeeds in it; an action that could have succeeded still can after any failure, unless it has done all it had to do |
| `PackageSuccess.SucceedsIffPerformable` | src-tauri/src/connect/package_control.rs:678-1112 | in every state that satisfies the invariant each of the ten actions succeeds without faults exactly if the fields of record, intent, receipts and root and the place of the users' directories are as a reader of the files could check; none of the predicates the actions decide by is used |
| `PackageController.PerformFinish` | src-tauri/src/connect/package_control.rs:694-740 | the same for the three actions that finish the operation on record, each of which passes only over a record of its own kind and of the target version asked for |
| `PackageController.PerformAnnouncement` | src-tauri/src/connect/package_control.rs:506-547 | a removal that no disabled but registered user stands against can be aborted however far its preparation gets |
| `PackageController.PerformPreparation` | src-tauri/src/connect/package_control.rs:506-547 | an upgrade or a removal requested while a rollback or a purge is interrupted leaves a state in which no action can clear record or intent any more |
| `PackageController.FinishForwardRemoval` | src-tauri/src/connect/package_control.rs:704-719 | finishes a removal of the target version asked for that is not being rolled back, and only such a one |
| `PackageController.FinishInstall` | src-tauri/src/connect/package_control.rs:721-740 | finishes exactly an upgrade or a reinstall on record, and only of the target version asked for |
| `PackageController.Operate` | src-tauri/src/connect/package_control.rs:506-547 | any sequence of actions, cut short anywhere, and of events of the machine, the installation scripts' among them, passes through a run of the transition system, so all theorems on runs hold of it; a wedged state stays wedged |
| `PackageController.StuckRefuses` | src-tauri/src/connect/package_control.rs:678-773 | no action can succeed over a stuck reinstall but preparing it once more |
| `PackageController.UnwindBootstrap` | src-tauri/linux/debian/postrm:79-124 | a bootstrap announced and not taken up by a controller is undone: the executable set aside is deleted before the intent goes, and an interrupted unwinding leaves the intent as it was |
| `PackageAdmission.JobGuardExcludesOperation` | src-tauri/src/connect/package_control.rs:1806-1822 | in every interleaving, while a job guard is held there is neither record nor intent |
| `PackageAdmission.StartupGuardPinsRecord` | src-tauri/src/connect/package_control.rs:1824-1878 | while a startup guard is held, the record it was admitted under is on disk unchanged, is settling and still names that enabled participant as pending |
| `PackageAdmission.AdmittedIffMayStart` | src-tauri/src/connect/package_control.rs:1824-1878 | with no intent pending a startup of a logged-in user is admitted, for some roots, exactly if the transition system lets that user's provider start |
| `PackageAdmission.AdmittedByContent` | src-tauri/src/connect/package_control.rs:1824-1878 | every caller, whatever its roots: admitted under a record exactly if the record restores, is settling, and has a participant of this uid, enabled and pending, with exactly these two roots and the mounted runtime directory recorded |
| `PackageAdmission.RestoreCanSucceed` | src-tauri/src/connect/package_control.rs:931-966 | for every successor that a settling record waits for there is an interleaving of the locks in which the controller lets go of two of them, the successor is let in, and the controller takes them back and goes on |
| `PackageAdmission.JobsTogether` | src-tauri/src/connect/package_control.rs:1806-1822 | two jobs can hold their guards at once |
| `PackageAdmission.StartupMayRegister` | src-tauri/src/connect/package_control.rs:1824-1878 | in every interleaving of the locks, a startup that is let in is one that the transition system lets register, and under a record it has the uid and both roots of an enabled, pending participant |
| `PackageAdmission.RestoreAdmitsOnlySuccessors` | src-tauri/src/connect/package_control.rs:938-966 | while a controller restores with its locks released, only successors its record expects can be admitted beside it |
| `PackageAdmission.RecheckConflictsOnlyWithIntruders` | src-tauri/src/connect/package_control.rs:938-966 | the comparison after a restore can fail exactly where some writer does without the controller lock |
| `PackageAdmission.StepKeeps` | src-tauri/src/connect/package_control.rs:506-547 | every lock step, read and write keeps mutual exclusion and what each process has seen |
| `PackageAdmission.WriteKeeps` | src-tauri/src/connect/package_control.rs:455-491 | a writer shares its files with nobody who has read them and nobody who is restoring |
| `QuiesceRecord.DecodeExactlyEncoded` | src-tauri/src/connect/package_control.rs:2093-2257 | the reader accepts a file as an intent exactly if the writer writes that file for it and it upgrades or removes; what that file is, line for line, is said by PlainFileRead and BootstrapFileRead |
| `QuiesceRecord.RoundTrip` | src-tauri/src/connect/package_control.rs:2093-2257 | every encodable intent, with or without a bootstrap, reads back as itself if it upgrades or removes; an encodable purge does not read back; what is written, line for line, is said by PlainLayout and BootstrapLayout |
| `QuiesceRecord.PlainLayout` | src-tauri/src/connect/package_control.rs:2093-2137 | an intent without a bootstrap is written as seven lines, each name and value spelt out, and the digest of these lines |
| `QuiesceRecord.BootstrapLayout` | src-tauri/src/connect/package_control.rs:2093-2137 | an intent with a bootstrap is written as eleven such lines, for each phase its own text |
| `QuiesceRecord.PlainFileRead` | src-tauri/src/connect/package_control.rs:2139-2257 | a file is read as a plain intent exactly if it consists of the seven lines that spell it, with a valid generation and valid versions, and does not purge |
| `QuiesceRecord.BootstrapFileRead` | src-tauri/src/connect/package_control.rs:2139-2257 | a file is read as a bootstrap intent exactly if it consists of the eleven lines that spell it, with kind=upgrade, positive device and inode and a lower-case digest |
| `QuiesceRecord.EncodeInjective` | src-tauri/src/connect/package_control.rs:2093-2137 | distinct encodable intents have distinct files, readable or not |
| `QuiesceRecord.PayloadOfEncoded` | src-tauri/src/connect/package_control.rs:2171-2184 | the last digest key is always the digest line, whatever other keys end in the same letters |
| `QuiesceRecord.CollectFields` | src-tauri/src/connect/package_control.rs:2185-2191 | distinct plain fields collect to a map of exactly those fields |
| `QuiesceRecord.LinesOfPayload` | src-tauri/src/connect/package_control.rs:2185-2191 | the payload splits into exactly the lines it was made of |
| `QuiesceRecord.EncodedFits` | src-tauri/src/connect/package_control.rs:2155-2170 | an encoded intent is never too large for the reader |
| `QuiesceRecord.BootstrapIntentInterprets` | src-tauri/src/connect/package_control.rs:2192-2256 | the eleven fields of a bootstrap intent are interpreted as that intent |
| `QuiesceRecord.PlainIntentInterprets` | src-tauri/src/connect/package_control.rs:2192-2256 | the seven fields of a plain intent are interpreted as that intent, or refused if it is a purge |
| `QuiesceRecord.ReadQuiesceIntent` | src-tauri/src/connect/package_control.rs:2139-2257 | the reading loop computes the decoding that these lemmas are about |
| `TextLines.SplitLastOf` | src-tauri/src/connect/package_control.rs:2172-2175 | splitting at the last occurrence finds the separator right before a tail that cannot contain it |
| `TextLines.ParseUnsignedOfDecimal` | src-tauri/src/connect/package_control.rs:2231-2242 | a printed number parses back, up to the maximum |
| `TextLines.DecimalDigit` | src-tauri/src/connect/package_control.rs:2093-2137 | a number is printed digit by digit, the units last, without leading zeros |
| `TextLines.SplitOnceOf` | src-tauri/src/connect/package_control.rs:2186-2187 | a line splits at its own first equals sign |
| `Text.UuidForms` | src-tauri/src/connect/package_control.rs:1605-1632 | a generation is valid exactly if it is one of the four written forms of 32 hexadecimal digits: plain, hyphenated, in braces, as a URN |
| `Text.VersionCodes` | src-tauri/src/connect/package_control.rs:1981-1989 | a version is valid exactly if it is 1 to 128 ASCII letters, digits and signs among . + : ~ _ - |
| `Lifecycle.OccursIffReachable` | src-tauri/src/connect/lifecycle_control.rs:302-429 | exactly ten combinations of kind, disposition and phase occur in some run |
| `Lifecycle.ClearedAtTargetOrPrior` | src-tauri/src/connect/lifecycle_control.rs:302-429 | when a transition is cleared the manager holds its target, or, if it was turned back, the choice held when it was begun, and that choice is the acknowledged one |
| `Lifecycle.EffectsMatchAdmission` | src-tauri/src/connect/lifecycle_control.rs:250-276 | at every effect that starts the provider the record admits exactly its own generation's child; at every effect that stops it, no child at all |
| `Lifecycle.AdmittedOnTheWay` | src-tauri/src/connect/lifecycle_control.rs:250-276 | under any record a child is admitted exactly if it names the record's generation, the record enables, and it is forward past its first phase or on its way back past its first phase to an enabled choice |
| `Lifecycle.TransitionIsStable` | src-tauri/src/connect/lifecycle_control.rs:336-466 | from creation to clearing only phase, disposition and the three deadlines change |
| `Lifecycle.StepKeepsInv` | src-tauri/src/connect/lifecycle_control.rs:336-466 | every step keeps the reachable phases and what they say about the manager |
| `Lifecycle.Witness` | src-tauri/src/connect/lifecycle_control.rs:336-429 | for each reachable combination there is a run that ends in it |
| `LifecycleControl.TransitionStore.Transit` | src-tauri/src/connect/lifecycle_control.rs:302-387 | at most six durable writes; success means cleared with the requested choice held and acknowledged, lost readiness means cleared with the prior choice held; a record of another state directory or another kind than requested is refused untouched; without faults a record of the directory observed ends cleared, and so does a new request |
| `LifecycleControl.TransitionStore.Acquire` | src-tauri/src/connect/lifecycle_control.rs:310-334 | resumes the transition on record exactly if its state directory is the one observed and the kind is not another one, with new deadlines, or begins the requested one with the directory observed and the manager's present choice as the prior one |
| `LifecycleControl.TransitionStore.Renew` | src-tauri/src/connect/lifecycle_control.rs:311-322 | a record whose state directory differs from the one observed, or of another kind than requested, is refused untouched; otherwise only deadlines change, to 35, 40 and 45 seconds from now |
| `LifecycleControl.TransitionStore.Begin` | src-tauri/src/connect/lifecycle_control.rs:324-333 | the first record is forward, at its first phase, with the directory observed and the choice the manager holds, so the same observation resumes it |
| `LifecycleControl.TransitionStore.ForwardTurn` | src-tauri/src/connect/lifecycle_control.rs:336-387 | one turn makes at most one write and strictly less is left to do; only a successor that is not ready turns the transition back |
| `LifecycleControl.TransitionStore.ResumeRollback` | src-tauri/src/connect/lifecycle_control.rs:392-429 | always ends in an error; the record is gone only with the prior choice held, and lost readiness is reported only then or while waiting |
| `LifecycleControl.TransitionStore.ConcludeRollback` | src-tauri/src/connect/lifecycle_control.rs:405-428 | waits for readiness only if the prior choice was enabled, then clears and reports lost readiness |
| `LifecycleControl.TransitionStore.AdvanceBy` | src-tauri/src/connect/lifecycle_control.rs:340-386 | a phase is written only after its effect succeeded |
| `LifecycleControl.TransitionStore.Conclude` | src-tauri/src/connect/lifecycle_control.rs:366-386 | the acknowledgement is written before the record is cleared |
| `LifecycleControl.TransitionStore.Persist` | src-tauri/src/connect/lifecycle_control.rs:431-454 | a record write takes hold in full or not at all |
| `LifecycleAdmission.GuardExcludesTransition` | src-tauri/src/connect/lifecycle_control.rs:278-284 | a live job guard and a transition record never coexist, in any interleaving of shared and exclusive holders |
| `LifecycleAdmission.RecordChangesUnobserved` | src-tauri/src/connect/lifecycle_control.rs:431-466 | whoever changes the record holds the control lock alone and nobody is looking at it meanwhile |
| `LifecycleAdmission.LockRunRefinesRun` | src-tauri/src/connect/lifecycle_control.rs:302-466 | seen through the locks the record goes through a run of the transition system |
| `LifecycleAdmission.AdmittedChildIsExpected` | src-tauri/src/connect/lifecycle_control.rs:250-276 | a child is told it may start only under the enabling record of its own generation, while no job runs, or where there is no record; nobody is writing meanwhile |
| `LifecycleAdmission.LocksLetEverybodyIn` | src-tauri/src/connect/lifecycle_control.rs:240-284 | for every fresh transition there is an interleaving in which a job holds a guard, then the record is written under both locks, then a child asks |
| `LifecycleAdmission.RunHasLockRun` | src-tauri/src/connect/lifecycle_control.rs:302-466 | conversely, whatever the transition system goes through, a single process holding the control lock can go through lock by lock |
| `LaunchEnvironment.QuoteIsEscape` | src-tauri/src/connect/lifecycle_control.rs:614-619 | the two successive replacements equal one pass that puts a backslash before every backslash and quotation mark |
| `LaunchEnvironment.ReadQuotedInvertsEscape` | src-tauri/src/connect/lifecycle_control.rs:614-619 | reading up to the first unescaped quotation mark gets the value back |
| `LaunchEnvironment.RenderReadsBack` | src-tauri/src/connect/lifecycle_control.rs:657-666 | rendering succeeds exactly for paths without line breaks and NUL, and the four values can be read back from the file |
| `LaunchEnvironment.RenderInjective` | src-tauri/src/connect/lifecycle_control.rs:657-666 | two records render to the same file exactly if configuration, data and runtime paths and generation are the same |
| `LaunchEnvironment.RenderedLines` | src-tauri/src/connect/lifecycle_control.rs:657-666 | the file is four lines with their names spelt out and escaped values; it exists exactly if no path has a line feed, a carriage return or a NUL |
| `LaunchEnvironment.LaunchStore.PersistLaunch` | src-tauri/src/connect/lifecycle_control.rs:621-655 | an accepted pair of files stays accepted through any interruption; a pair accepted only since is the new one in full |
| `LaunchEnvironment.LaunchStore.RenewRuntime` | src-tauri/src/connect/lifecycle_control.rs:745-773 | only the recorded runtime directory changes, to the present one, exactly if the session is proven; afterwards the pair is accepted |
| `OcrHandoff.SubmitsAreSaved` | src-tauri/src/connect/ocr_consumer.rs:483-530 | every submission finds the handoff durably uncertain and carries the saved job id and bytes in the saved request, whose one input has exactly their size and digest |
| `OcrHandoff.StoredOutputsAcceptable` | src-tauri/src/connect/ocr_consumer.rs:698-844 | whatever outputs are stored in any run, they fit the saved request and belong together |
| `OcrContent.PreparedRequestIsSaved` | src-tauri/src/connect/ocr_consumer.rs:351-427 | a handoff as it was prepared, over an intact PDF of 1 to 100 pages, passes the check made before sending, sends the request it was prepared with, and is served by the provider it was prepared for |
| `OcrContent.ReadyIffDelivered` | src-tauri/src/connect/ocr_consumer.rs:774-844 | a report yields outputs exactly if it is on this job, from its provider, done, and delivers a pair that may be kept, in either order; and then it yields that pair |
| `OcrContent.CompletedIffDelivered` | src-tauri/src/connect/ocr_consumer.rs:809-911 | the checks on finished outputs accept exactly two artifacts, one of each type, that encode the bytes they declare and may be kept together |
| `OcrContent.JudgeByState` | src-tauri/src/connect/ocr_consumer.rs:698-808 | a report on this job lets it run exactly while accepted or processing, fails it with the provider's error exactly if it failed, and is malformed exactly if it is done without a pair that may be kept; a report on anything else is none of these |
| `OcrContent.IdentityIffEcho` | src-tauri/src/connect/ocr_consumer.rs:774-808 | a report is on this job exactly if it echoes the request sent: protocol, job, capability and version, provider, and the one input with its type, size and digest |
| `OcrContent.RequestInFull` | src-tauri/src/connect/ocr_consumer.rs:351-427 | for which documents a handoff is prepared, and the request it stores, with all texts and limits in figures |
| `OcrContent.SavedInFull` | src-tauri/src/connect/ocr_consumer.rs:637-668 | a stored request is sent exactly if source and request are intact and it is the request that preparing writes |
| `OcrContent.DeliveryInFull` | src-tauri/src/connect/ocr_consumer.rs:809-911 | a pair may be kept exactly if it is one tagged PDF of up to 2 MiB and one text of up to 256 KiB, of different names, that encode the bytes they declare and belong to the source |
| `OcrIntake.Intake.Process` | src-tauri/src/connect/ocr_consumer.rs:300-349 | whoever asks for a root's handoff, whatever failed before and whoever prepared it meanwhile, gets the child named when it was prepared, admitted by the provider it was prepared for, and no other handoff is touched |
| `OcrIntake.Intake.Operate` | src-tauri/src/connect/ocr_consumer.rs:300-349 | over any sequence of calls and recoveries a root answered twice is answered the same child, and no two roots the same one |
| `OcrIntake.Intake.Admit` | src-tauri/src/pipeline/db.rs:384-452 | an existing handoff of the root is kept as it is; a new one is stored exactly for an admissible document |
| `OcrIntake.Intake.PrepareHandoff` | src-tauri/src/connect/ocr_consumer.rs:351-427 | only an intact source of 1 to 100 pages is prepared; what is stored then is what was prepared here, or what somebody else prepared first |
| `OcrIntake.Intake.RunPrepared` | src-tauri/src/connect/ocr_consumer.rs:328-349 | a provider other than the one the handoff was prepared for is refused untouched |
| `OcrIntake.Intake.RecoverOne` | src-tauri/src/connect/ocr_consumer.rs:955-1003 | an uncontrolled handoff is left as it is unless its child is admitted; an admitted one needs no provider and names its child |
| `OcrIntake.Intake.Recover` | src-tauri/src/connect/ocr_consumer.rs:945-1012 | every child named is the admitted child of one of the listed roots, whatever became of the others, and no other handoff is touched |
| `OcrHandoff.SubmitsSeparated` | src-tauri/src/connect/ocr_consumer.rs:531-550 | between two submissions the provider answered that it does not know the job |
| `OcrHandoff.AcceptedAtMostOnce` | src-tauri/src/connect/ocr_consumer.rs:477-550 | a provider that never forgets takes the job at most once, over all crashes and restarts |
| `OcrHandoff.NoTransportOnceSettled` | src-tauri/src/connect/ocr_consumer.rs:566-581 | once outputs are stored or the handoff failed the provider is never contacted again and the outputs never change |
| `OcrHandoff.OneCallAfterCancel` | src-tauri/src/connect/ocr_consumer.rs:593-620 | once cancellation is requested at most one more call to the provider starts, over all restarts |
| `OcrHandoff.AdmittedOnlyAfterCheckpoint` | src-tauri/src/connect/ocr_consumer.rs:566-570 | a child is admitted only by a runner that passed its checkpoint with the outputs ready, before any cancellation |
| `OcrHandoff.StepKeepsInv` | src-tauri/src/connect/ocr_consumer.rs:477-590 | every step keeps outputs and phases consistent and, for a provider that never forgets, a job that may be sent unaccepted |
| `OcrRunner.HandoffStore.RunUntil` | src-tauri/src/connect/ocr_consumer.rs:468-591 | the child returned is the one fixed at preparation and the phase is then admitted or completed; a handoff cancelled before or during the run and not yet admitted ends failed; settled or cancelled handoffs make no call; the loop ends at the deadline |
| `OcrRunner.HandoffStore.CancellationCheckpoint` | src-tauri/src/connect/ocr_consumer.rs:593-620 | passes, or fails the handoff durably before reporting cancellation; an admitted child is left alone |
| `OcrRunner.HandoffStore.SubmitTurn` | src-tauri/src/connect/ocr_consumer.rs:483-530 | announces before it sends, sends the saved request once and only if it passes its check, and stores where the answer leads |
| `OcrRunner.HandoffStore.ReconcileTurn` | src-tauri/src/connect/ocr_consumer.rs:531-550 | asks once and prepares again only if the job is unknown |
| `OcrRunner.HandoffStore.PollTurn` | src-tauri/src/connect/ocr_consumer.rs:551-565 | asks once and stores where the answer leads |
| `OcrRunner.HandoffStore.ApplyReport` | src-tauri/src/connect/ocr_consumer.rs:698-772 | accepted and processing leave the handoff running, a failure fails it with the provider's error, a result on this job is stored exactly if it delivers a pair that may be kept, and anything else fails it as invalid |
| `OcrRunner.HandoffStore.FollowJudgement` | src-tauri/src/connect/ocr_consumer.rs:698-772 | the phase and the stored outputs that each judgement leads to |
| `OcrRunner.HandoffStore.AdmitChild` | src-tauri/src/pipeline/db.rs:530-627 | admission answers with the child fixed at preparation, whether it happens now or happened before |
| `OcrRunner.HandoffStore.FailHandoff` | src-tauri/src/pipeline/db.rs:506-528 | fails the handoff exactly if it is still in the expected phase |
| `WorkerRegistry.OneRemover` | src-tauri/src/desktop.rs:106-140 | every key has exactly one party that will still remove it, and no party waits to remove anything else |
| `WorkerRegistry.NoTwoWorkers` | src-tauri/src/desktop.rs:465-569 | no run has two workers |
| `WorkerRegistry.PrecedesWhereTheyDiffer` | src-tauri/src/desktop.rs:422-449 | the order of run ids in which the first active one is named: by the first character that differs, a prefix first |
| `WorkerRegistry.ReclaimedBeforeDisarm` | src-tauri/src/desktop.rs:465-482 | a worker may end and its run be claimed anew before its claim is disarmed; the run's token is then another, and dropping the disarmed claim leaves the key to its new owner |
| `WorkerRegistry.StartedConsistent` | src-tauri/src/desktop.rs:544-569 | starting a worker hands the key over from claim to worker |
| `WorkerRegistry.ReservedConsistent` | src-tauri/src/desktop.rs:422-456 | reserving free runs gives each key to the reservation alone |
| `WorkerRegistry.Registry.ClaimRun` | src-tauri/src/desktop.rs:524-542 | enters the run with a token of its own exactly if it is not active, and otherwise changes nothing |
| `WorkerRegistry.Registry.SpawnClaimed` | src-tauri/src/desktop.rs:544-569 | a started worker takes the claim's key over; otherwise nothing changes |
| `WorkerRegistry.Registry.DropClaim` | src-tauri/src/desktop.rs:120-128 | a pending claim removes its key, which still holds its token; a disarmed one removes nothing |
| `WorkerRegistry.Registry.FinishWorker` | src-tauri/src/desktop.rs:551-567 | a worker removes its run's key, which still holds the token it was started with, even if its claim is not disarmed yet |
| `WorkerRegistry.Registry.Reserve` | src-tauri/src/desktop.rs:422-449 | all runs or none, exactly if none is active; the active run first in order is the one named |
| `WorkerRegistry.Registry.ReleaseReservation` | src-tauri/src/desktop.rs:130-138 | removes exactly the keys it entered, each still holding its own token |
| `WorkerRegistry.Registry.TokenOf` | src-tauri/src/desktop.rs:302-318 | a cancellation request reaches the worker of the run |
| `WorkerRegistry.Registry.Spawn` | src-tauri/src/desktop.rs:465-482 | with other threads at work between any two steps, the claim removes the key exactly if no worker was started |
| `WorkerRegistry.Registry.OtherStep` | src-tauri/src/desktop.rs:422-569 | no step of another thread touches a claim that is not its own |
| `DeliveryPrefix.FromClaimLines` | src-tauri/src/connect/contracts.rs:337-400 | all claims if they fit, else the largest number of whole claims that fits with the notice, smaller than all of them if content grows with warnings; fails exactly if none fits or the lines are not the claims |
| `DeliveryPrefix.CountFitting` | src-tauri/src/connect/contracts.rs:371-387 | the byte count never overflows and every longer prefix is too long for the text limit |
| `DeliveryPrefix.NoticeOnce` | src-tauri/src/connect/contracts.rs:359-369 | the notice is added at most once and only where there was none |
| `DeliveryPrefix.JoinFromFront` | src-tauri/src/connect/contracts.rs:337-400 | claims are joined by one blank line each, and an only claim stands alone |
| `DeliveryPrefix.FitsInFigures` | src-tauri/src/connect/contracts.rs:465-480 | the limits of a delivered result on text, warnings, codes, messages and size, in figures |
| `DeliveryPrefix.NoticeDoesNotHelp` | src-tauri/src/connect/contracts.rs:350-369 | what does not fit as it is does not fit with the notice either |
| `Entitlement.EntitlementGate.Install` | src-tauri/src/connect/entitlement.rs:228-264 | at every moment the destination holds the prior contents or the candidate; after an error the prior contents are back unless restoring failed; without faults it succeeds exactly if there are keys, the source is 1 byte to 16 KiB, a trusted key signed it, it is issued before it begins and begins before it expires, all three readings fall into its time, and it has the feature; each other case has its own error |
| `Entitlement.EntitlementGate.InstallCandidate` | src-tauri/src/connect/entitlement.rs:808-845 | the destination changes only by the rename, and the result says whether it happened |
| `Entitlement.EntitlementGate.RestorePrevious` | src-tauri/src/connect/entitlement.rs:848-878 | passes only with the prior contents, or their absence, back in place |
| `Entitlement.DecisionMovesForward` | src-tauri/src/connect/entitlement.rs:524-600 | a licence's decision only moves from not yet valid through its validity to expired, and does not change within a stage |
| `Entitlement.DecisionByClaims` | src-tauri/src/connect/entitlement.rs:524-600 | which decision a file gets, by its size, its signature, its three times and its feature: each of the five exactly in its own case |
| `Identifiers.ValidSegments` | src-tauri/src/connect/entitlement.rs:619-636 | the one-pass recogniser accepts exactly the nonempty runs of lower-case letters and digits joined by single separators, up to the limit |
| `Identifiers.RecognisersAgree` | src-tauri/src/connect/contracts.rs:509-521 | on every string the recogniser by positions and forbidden pairs accepts exactly the same language without underscores, up to 100 characters |
| `Identifiers.GrammarIsAlternation` | src-tauri/src/connect/entitlement.rs:619-636 | the grammar is the same as having alphanumeric ends and no two adjacent separators |
| `Identifiers.PairsForbidden` | src-tauri/src/connect/contracts.rs:515-520 | forbidding the four pairs is forbidding adjacent separators |
| `Identifiers.GrammarInCodes` | src-tauri/src/connect/entitlement.rs:619-636 | the grammar in ASCII codes, apart from the recognisers' own character classes |

## Left out

- File plumbing: ownership, modes and link counts, temporary files and their leftovers, directory handles, and reading
  errors as distinct from other failures; JSON decoding, format versions and package ids.
- NSS, systemd and process handling: discovery reads a map of acknowledgements, and effects act on sets of users.
- PackageController.Perform: that a failed attempt can be repeated is stated for users at rest, because a login can
  spoil it; PackageSessions.LoginKeepsPreparable and PackageSessions.LoginKeepsFinishable say exactly when.
- PackageRuns.CompletionExcludesRollback: holds under the stated discipline; the exact failure without it is
  PackageRuns.LingeringIntentRevivesGeneration.
- OcrRunner.HandoffStore.SubmitTurn: reloading a handoff after a lost compare-and-set, which one runner at a time never
  meets.
- OcrRunner.HandoffStore.RunUntil: protocol 3 streaming is not part of this model.
- OcrIntake.Intake.Recover: the order and the warnings of a recovery, and completing a root's cancellation in the
  database.
- OcrIntake.Intake.Process: discovering providers; it is given the one that was found.
- HTTP transport, provider discovery and URL handling.
- Base64url, Ed25519 signatures, RFC 3339 timestamps and SHA-256 as implementations.
- Persisting a failed worker start, and what a worker does to its run in the database when it ends.
- Windows storage, the user interface, command wrappers and build scripts.
