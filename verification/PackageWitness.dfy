/**
 * Runs, from a machine on which nothing has happened yet, into the states in which the protocol fails its users: each
 * condition that another module states exactly is met by a sequence of steps that can really happen.
 */
module PackageWitness {
  import opened Runs
  import opened Wrappers
  import opened Text
  import opened PackageTypes
  import opened PackageWorld
  import opened PackageInvariant
  import opened PackageRuns
  import opened PackageConditions
  import opened PackageSessions
  import opened PackageStuck
  import opened PackageController

  // ---- operations on a machine without users ----

  /** Nothing is going on, nobody has acknowledged, and the generation is new. */
  ghost predicate Idle(w: World, g: Generation) {
    Inv(w) && w.record.None? && w.intent.None? && w.acks == map[] && IsUuid(g) && g !in w.past.issued
  }

  function StoppedRecord(g: Generation, kind: Kind, source: Version, target: Version): Record {
    Record(Forward, g, kind, PublishersStopped, source, target, None, [])
  }

  /** The operation is prepared, its intent withdrawn or not. */
  function PreparedWorld(w: World, i: QuiesceIntent, withdrawn: bool): World {
    Announced(w, i).(intent := if withdrawn then None else Some(i), controllers := w.controllers + {i.generation},
                     record := Some(StoppedRecord(i.generation, i.kind, i.sourceVersion, i.targetVersion)))
  }

  /** Announces an operation, creates its record, stops the (absent) users, and perhaps withdraws the intent. */
  lemma PrepareRun(begun: History, i: QuiesceIntent, withdrawn: bool) returns (run: History)
    requires IsRun(begun) && Idle(Last(begun), i.generation)
    requires (i.kind.Remove? || i.kind.Upgrade?) && i.bootstrap.None?
    ensures IsRun(run) && run.worlds[0] == begun.worlds[0] && Last(run) == PreparedWorld(Last(begun), i, withdrawn)
  {
    run := AnnounceRun(begun, i);
    run := StopRun(run, Last(run).record.value);
    if withdrawn {
      run := Extend(run, IntentCleared, Last(run).(intent := None));
    }
  }

  lemma AnnounceRun(begun: History, i: QuiesceIntent) returns (run: History)
    requires IsRun(begun) && Idle(Last(begun), i.generation)
    requires (i.kind.Remove? || i.kind.Upgrade?) && i.bootstrap.None?
    ensures IsRun(run) && run.worlds[0] == begun.worlds[0]
    ensures Last(run) == Announced(Last(begun), i).(record :=
      Some(StoppedRecord(i.generation, i.kind, i.sourceVersion, i.targetVersion).(phase := IntentRecorded)))
  {
    var r := StoppedRecord(i.generation, i.kind, i.sourceVersion, i.targetVersion).(phase := IntentRecorded);
    run := Extend(begun, IntentWritten(i), Announced(Last(begun), i));
    run := Extend(run, RecordCreated(r), Last(run).(record := Some(r)));
  }

  lemma StopRun(begun: History, r: Record) returns (run: History)
    requires IsRun(begun) && Last(begun).record == Some(r) && !r.kind.Reinstall? && r.phase.IntentRecorded?
    requires r.participants == []
    ensures IsRun(run) && run.worlds[0] == begun.worlds[0]
    ensures Last(run) == Last(begun).(controllers := Last(begun).controllers + {r.generation},
                                      record := Some(r.(phase := PublishersStopped)))
  {
    run := Extend(begun, ControllerPrepared(r.generation),
                  Last(begun).(controllers := Last(begun).controllers + {r.generation}));
    run := Extend(run, StopsRecorded, Last(run).(record := Some(r.(phase := PublishersStopped))));
  }

  function RemovedWorld(w: World, r: Record): World {
    w.(record := None, removal := Some(ExactRemoval(r)),
       past := w.past.(receipted := w.past.receipted + {r.generation}))
  }

  /** Settles a prepared removal, writes its receipt and clears it. */
  lemma FinishRemovalRun(begun: History, r: Record) returns (run: History)
    requires IsRun(begun) && Last(begun).record == Some(r) && r.kind.Remove? && r.disposition.Forward?
    requires r.phase.PublishersStopped? && r.participants == [] && Last(begun).removal.None?
    ensures IsRun(run) && run.worlds[0] == begun.worlds[0] && Last(run) == RemovedWorld(Last(begun), r)
  {
    var settling := r.(phase := Settling);
    run := Extend(begun, SettlingBegun, Last(begun).(record := Some(settling)));
    run := Extend(run, RemovalWritten, RemovedWorld(Last(begun), r).(record := Some(settling)));
    run := FinishRun(run, settling);
  }

  lemma FinishRun(begun: History, r: Record) returns (run: History)
    requires IsRun(begun) && Last(begun).record == Some(r) && r.kind.Remove? && r.disposition.Forward?
    requires r.phase.Settling? && r.participants == [] && Last(begun).removal == Some(ExactRemoval(r))
    ensures IsRun(run) && run.worlds[0] == begun.worlds[0] && Last(run) == Last(begun).(record := None)
  {
    run := Extend(begun, FinalizingReached, Last(begun).(record := Some(r.(phase := Finalizing))));
    run := Extend(run, RecordCleared, Last(run).(record := None));
  }

  function ReinstallOf(w: World, h: Generation, target: Version): Record
    requires w.removal.Some?
  {
    Record(Forward, h, Reinstall, Settling, w.removal.value.removedVersion, target, Some(w.removal.value.producer), [])
  }

  /** A reinstall has begun to settle; its controller was handed over, or that was cut short. */
  function ReinstallingWorld(w: World, h: Generation, target: Version, moved: bool): World
    requires w.removal.Some?
  {
    w.(record := Some(ReinstallOf(w, h, target)), past := Issue(w.past, h, Reinstall),
       controllers := if moved then w.controllers - {w.removal.value.producer} + {h} else w.controllers)
  }

  lemma BeginReinstallRun(begun: History, h: Generation, target: Version, moved: bool) returns (run: History)
    requires IsRun(begun) && Inv(Last(begun)) && Last(begun).record.None?
    requires Last(begun).removal.Some? && Last(begun).removal.value.participants == []
    requires IsUuid(h) && h !in Last(begun).past.issued
    ensures IsRun(run) && run.worlds[0] == begun.worlds[0] && Inv(Last(run))
    ensures Last(run) == ReinstallingWorld(Last(begun), h, target, moved)
  {
    var w := Last(begun);
    var r := ReinstallOf(w, h, target).(phase := PublishersStopped);
    run := Extend(begun, ReinstallCreated(r), w.(record := Some(r), past := Issue(w.past, h, Reinstall)));
    if moved {
      run := Extend(run, ControllerMoved(w.removal.value.producer, h),
                    Last(run).(controllers := w.controllers - {w.removal.value.producer} + {h}));
    }
    run := Extend(run, SettlingBegun, Last(run).(record := Some(r.(phase := Settling))));
    RunKeepsInv(run, |run.worlds| - 1);
  }

  function ReinstalledWorld(w: World, r: Record): World
    requires r.predecessor.Some?
  {
    w.(record := None, removal := None, install := Some(ExactInstall(r)), controllers := w.controllers - {r.generation})
  }

  /** Finishes a reinstall that meets no receipt of another version. */
  lemma FinishReinstallRun(begun: History, r: Record) returns (run: History)
    requires IsRun(begun) && Last(begun).record == Some(r) && r.kind.Reinstall? && r.predecessor.Some?
    requires r.disposition.Forward? && r.phase.Settling? && r.participants == [] && Last(begun).install.None?
    requires Last(begun).removal.Some? && Last(begun).removal.value.producer == r.predecessor.value
    ensures IsRun(run) && run.worlds[0] == begun.worlds[0] && Last(run) == ReinstalledWorld(Last(begun), r)
  {
    run := Extend(begun, InstallWritten, Last(begun).(install := Some(ExactInstall(r))));
    run := Extend(run, FinalizingReached, Last(run).(record := Some(r.(phase := Finalizing))));
    run := ClearReinstallRun(run, r.(phase := Finalizing));
  }

  lemma ClearReinstallRun(begun: History, r: Record) returns (run: History)
    requires IsRun(begun) && Last(begun).record == Some(r) && r.kind.Reinstall? && r.phase.Finalizing?
    requires r.disposition.Forward?
    requires Last(begun).removal.Some? && r.predecessor == Some(Last(begun).removal.value.producer)
    ensures IsRun(run) && run.worlds[0] == begun.worlds[0]
    ensures Last(run) == Last(begun).(record := None, removal := None,
                                      controllers := Last(begun).controllers - {r.generation})
  {
    run := Extend(begun, ControllerRetired, Last(begun).(controllers := Last(begun).controllers - {r.generation}));
    run := Extend(run, RemovalConsumed, Last(run).(removal := None));
    run := Extend(run, RecordCleared, Last(run).(record := None));
  }

  /** Upgrades from one version to another, from announcement to clearing. */
  lemma UpgradeRun(begun: History, u: Generation, source: Version, target: Version) returns (run: History)
    requires IsRun(begun) && Idle(Last(begun), u)
    ensures IsRun(run) && run.worlds[0] == begun.worlds[0]
    ensures Last(run) == Last(begun).(past := Issue(Last(begun).past, u, Upgrade))
  {
    run := PrepareRun(begun, NewIntent(Upgrade, source, target, u), true);
    var r := Last(run).record.value.(phase := Settling);
    run := Extend(run, SettlingBegun, Last(run).(record := Some(r)));
    run := FinishUpgradeRun(run, r);
    assert Last(begun).controllers + {u} - {u} == Last(begun).controllers;
  }

  lemma FinishUpgradeRun(begun: History, r: Record) returns (run: History)
    requires IsRun(begun) && Last(begun).record == Some(r) && r.kind.Upgrade? && r.disposition.Forward?
    requires r.phase.Settling? && r.participants == []
    ensures IsRun(run) && run.worlds[0] == begun.worlds[0]
    ensures Last(run) == Last(begun).(record := None, controllers := Last(begun).controllers - {r.generation})
  {
    run := Extend(begun, FinalizingReached, Last(begun).(record := Some(r.(phase := Finalizing))));
    run := Extend(run, ControllerRetired, Last(run).(controllers := Last(run).controllers - {r.generation}));
    run := Extend(run, RecordCleared, Last(run).(record := None));
  }

  /** Removes a version completely. */
  lemma RemovalRun(begun: History, g: Generation, version: Version, withdrawn: bool) returns (run: History)
    requires IsRun(begun) && Idle(Last(begun), g) && Last(begun).removal.None?
    ensures IsRun(run) && run.worlds[0] == begun.worlds[0] && Inv(Last(run))
    ensures var i := NewIntent(Remove, version, version, g);
            Last(run) == RemovedWorld(PreparedWorld(Last(begun), i, withdrawn),
                                      StoppedRecord(g, Remove, version, version))
  {
    run := PrepareRun(begun, NewIntent(Remove, version, version, g), withdrawn);
    run := FinishRemovalRun(run, Last(run).record.value);
    RunKeepsInv(run, |run.worlds| - 1);
  }

  /** Removes and reinstalls a version on a fresh machine. */
  lemma RemoveReinstallRun(w: World, g: Generation, h: Generation, version: Version, withdrawn: bool, moved: bool)
    returns (run: History)
    requires Pristine(w) && w.acks == map[] && IsUuid(g) && IsUuid(h) && g != h
    ensures IsRun(run) && run.worlds[0] == w && Inv(Last(run))
    ensures var last := Last(run);
            && last.record.None? && last.removal.None? && last.acks == map[]
            && last.intent == (if withdrawn then None else Some(NewIntent(Remove, version, version, g)))
            && last.install == Some(InstallReceipt(h, g, version, []))
            && last.controllers == (if moved then {} else {g})
            && last.past == Past(map[g := Remove, h := Reinstall], {g}, {})
  {
    PristineInv(w);
    run := RemovalRun(Start(w), g, version, withdrawn);
    run := BeginReinstallRun(run, h, version, moved);
    run := FinishReinstallRun(run, Last(run).record.value);
    RunKeepsInv(run, |run.worlds| - 1);
  }

  // ---- completion and rollback of one generation ----

  /** An intent outlives removal and reinstall when finishing did not wait for its withdrawal. */
  lemma LingeringIntentReached(w: World, g: Generation, h: Generation, version: Version) returns (run: History)
    requires Pristine(w) && w.acks == map[] && IsUuid(g) && IsUuid(h) && g != h
    ensures IsRun(run) && run.worlds[0] == w
    ensures var last := Last(run);
            && last.record.None? && last.removal.None? && last.acks == map[]
            && last.intent == Some(NewIntent(Remove, version, version, g))
            && g in last.past.receipted - last.past.rolledBack
  {
    run := RemoveReinstallRun(w, g, h, version, false, true);
  }

  /** From any machine without acknowledged users, some run completes a removal and then rolls it back. */
  lemma CompletedRemovalRolledBack(w: World, g: Generation, h: Generation, version: Version) returns (run: History)
    requires Pristine(w) && w.acks == map[] && IsUuid(g) && IsUuid(h) && g != h
    ensures IsRun(run) && run.worlds[0] == w && !Disciplined(run)
    ensures g in Last(run).past.receipted && g in Last(run).past.rolledBack
  {
    run := LingeringIntentReached(w, g, h, version);
    var r := StoppedRecord(g, Remove, version, version).(phase := IntentRecorded);
    run := Extend(run, RecordCreated(r), Last(run).(record := Some(r)));
    run := Extend(run, RolledBack,
                  Last(run).(record := Some(r.(disposition := Rollback, phase := Settling)),
                             past := Last(run).past.(rolledBack := Last(run).past.rolledBack + {g})));
    PristineInv(w);
    if Disciplined(run) {
      CompletionExcludesRollback(run, |run.worlds| - 1);
    }
  }

  // ---- a controller left behind ----

  /** A reinstall whose handover was cut short ends with the removal's controller still there. */
  lemma ControllerLeftBehind(w: World, g: Generation, h: Generation, version: Version) returns (run: History)
    requires Pristine(w) && w.acks == map[] && IsUuid(g) && IsUuid(h) && g != h
    ensures IsRun(run) && run.worlds[0] == w
    ensures Last(run).record.None? && Last(run).removal.None? && Last(run).intent.None? && g in Last(run).controllers
  {
    run := RemoveReinstallRun(w, g, h, version, true, false);
  }

  // ---- a reinstall that cannot end ----

  /** A version removed and reinstalled, then upgraded: the install receipt still names the older version. */
  lemma UpgradedRun(w: World, g: Generation, h: Generation, u: Generation, version: Version, newer: Version)
    returns (run: History)
    requires Pristine(w) && w.acks == map[] && IsUuid(g) && IsUuid(h) && IsUuid(u) && g != h && u != g && u != h
    ensures IsRun(run) && run.worlds[0] == w && Inv(Last(run))
    ensures var last := Last(run);
            && last.record.None? && last.removal.None? && last.acks == map[] && last.intent.None?
            && last.install == Some(InstallReceipt(h, g, version, [])) && last.past.issued.Keys == {g, h, u}
  {
    run := RemoveReinstallRun(w, g, h, version, true, true);
    run := UpgradeRun(run, u, version, newer);
    RunKeepsInv(run, |run.worlds| - 1);
  }

  /** Where the install receipt names another version, removing and reinstalling gets stuck. */
  lemma StuckRun(begun: History, k: Generation, l: Generation, version: Version) returns (run: History)
    requires IsRun(begun) && Idle(Last(begun), k) && Last(begun).removal.None?
    requires IsUuid(l) && k != l && l !in Last(begun).past.issued
    requires Last(begun).install.Some? && Last(begun).install.value.installedVersion != version
    ensures IsRun(run) && run.worlds[0] == begun.worlds[0] && Inv(Last(run)) && Stuck(Last(run))
  {
    run := RemovalRun(begun, k, version, true);
    run := BeginReinstallRun(run, l, version, true);
  }

  /**
   * Remove and reinstall, upgrade, remove and reinstall again: every operation is prepared, withdrawn, handed over and
   * finished in turn, and the last one can never be finished.
   */
  lemma StuckReached(w: World, gs: seq<Generation>, version: Version, newer: Version) returns (run: History)
    requires Pristine(w) && w.acks == map[] && version != newer
    requires |gs| == 5 && (forall i :: 0 <= i < 5 ==> IsUuid(gs[i])) && forall i, j :: 0 <= i < j < 5 ==> gs[i] != gs[j]
    ensures IsRun(run) && run.worlds[0] == w && Stuck(Last(run)) && !CanEnd(Last(run))
  {
    run := UpgradedRun(w, gs[0], gs[1], gs[2], version, newer);
    run := StuckRun(run, gs[3], gs[4], newer);
    ReinstallEndsUnlessStuck(Last(run));
  }

  // ---- no action can go on ----

  /** A removal turned back and interrupted, then another operation announced: no action can make progress any more. */
  lemma WedgedReached(w: World, g: Generation, h: Generation, version: Version) returns (run: History)
    requires Pristine(w) && w.acks == map[] && IsUuid(g) && IsUuid(h) && g != h
    ensures IsRun(run) && run.worlds[0] == w && Wedged(Last(run))
  {
    PristineInv(w);
    run := AnnounceRun(Start(w), NewIntent(Remove, version, version, g));
    var r := Last(run).record.value;
    run := Extend(run, RolledBack,
                  Last(run).(record := Some(r.(disposition := Rollback, phase := Settling)),
                             past := Last(run).past.(rolledBack := Last(run).past.rolledBack + {g})));
    run := Extend(run, IntentCleared, Last(run).(intent := None));
    var i := NewIntent(Remove, version, version, h);
    run := Extend(run, IntentWritten(i), Announced(Last(run), i));
  }

  /** Any operation that has been prepared is one over which preparing again leaves an intent behind. */
  lemma LeavesIntentReached(w: World, g: Generation, version: Version) returns (run: History)
    requires Pristine(w) && w.acks == map[] && IsUuid(g) && ValidVersion(version)
    ensures IsRun(run) && run.worlds[0] == w && LeavesIntent(Last(run), version, version)
  {
    PristineInv(w);
    run := PrepareRun(Start(w), NewIntent(Remove, version, version, g), true);
  }

  // ---- operations over one user ----

  /** A fresh machine with one acknowledged user, who is logged in. */
  ghost predicate OneUser(w: World, uid: Uid) {
    && Pristine(w) && w.acks.Keys == {uid} && Discoverable(w) && uid in w.runtime
  }

  function BegunRecord(w: World, uid: Uid, i: QuiesceIntent): Record
    requires uid in w.acks
  {
    Record(Forward, i.generation, i.kind, IntentRecorded, i.sourceVersion, i.targetVersion, None, [Joined(w, uid)])
  }

  /** Announces an operation and creates its record over the user found. */
  lemma BeginRun(begun: History, uid: Uid, i: QuiesceIntent) returns (run: History)
    requires IsRun(begun) && Last(begun).record.None? && Last(begun).intent.None? && Last(begun).acks.Keys == {uid}
    requires IsUuid(i.generation) && i.generation !in Last(begun).past.issued
    requires (i.kind.Remove? || i.kind.Upgrade?) && i.bootstrap.None?
    ensures IsRun(run) && run.worlds[0] == begun.worlds[0]
    ensures Last(run) == Announced(Last(begun), i).(record := Some(BegunRecord(Last(begun), uid, i)))
    ensures |run.events| == |begun.events| + 2
  {
    run := Extend(begun, IntentWritten(i), Announced(Last(begun), i));
    var r := BegunRecord(Last(begun), uid, i);
    assert r.participants == [Joined(Last(run), uid)];
    run := Extend(run, RecordCreated(r), Last(run).(record := Some(r)));
  }

  /**
   * The user logs out while an operation is being prepared, which spoils nothing, and logs in again under another
   * runtime directory: now it cannot be prepared, until the user logs out once more.
   */
  lemma StrandedByLogin(w: World, uid: Uid, i: QuiesceIntent, other: Identity) returns (run: History)
    requires OneUser(w, uid) && other != w.runtime[uid] && IsUuid(i.generation)
    requires (i.kind.Remove? || i.kind.Upgrade?) && i.bootstrap.None?
    ensures IsRun(run) && run.worlds[0] == w && |run.events| == 4 && run.events[3] == LoggedIn(uid, other)
    ensures Preparable(run.worlds[3], i) && !Preparable(run.worlds[4], i)
    ensures Preparable(AfterLogout(run.worlds[4], uid), i)
  {
    run := AwayRun(w, uid, i);
    var away, r := Last(run), BegunRecord(w, uid, i);
    RunKeepsInv(run, 3);
    LoginKeepsPreparable(away, i, uid, other);
    assert !ComesBack(r, 0, uid, other);
    LogoutUndoesLogin(away, uid, other);
    run := Extend(run, LoggedIn(uid, other), AfterLogin(away, uid, other));
  }

  /** An operation has begun over the user, who is logged out now. */
  lemma AwayRun(w: World, uid: Uid, i: QuiesceIntent) returns (run: History)
    requires OneUser(w, uid) && IsUuid(i.generation) && (i.kind.Remove? || i.kind.Upgrade?) && i.bootstrap.None?
    ensures IsRun(run) && run.worlds[0] == w && |run.events| == 3
    ensures Last(run).record == Some(BegunRecord(w, uid, i)) && Preparable(Last(run), i) && uid !in Last(run).runtime
  {
    PristineInv(w);
    run := BeginRun(Start(w), uid, i);
    run := Extend(run, LoggedOut(uid), AfterLogout(Last(run), uid));
  }

  // ---- a rollback that its users forbid ----

  /**
   * A user who has acknowledged the provider as disabled starts it all the same; the removal that is then begun and
   * turned back cannot be finished.
   */
  lemma DisabledButRegistered(w: World, uid: Uid, g: Generation, version: Version) returns (run: History)
    requires OneUser(w, uid) && !w.acks[uid].enabled && IsUuid(g)
    ensures IsRun(run) && run.worlds[0] == w && Last(run).record.Some? && Last(run).intent.None?
    ensures Last(run).record.value.disposition.Rollback? && !Finishable(Last(run), Remove, version)
    ensures Finishable(Quieted(Last(run), uid), Remove, version)
  {
    PristineInv(w);
    run := Extend(Start(w), ProviderStarted(uid, false), w.(registered := w.registered + {uid}));
    var i := NewIntent(Remove, version, version, g);
    run := BeginRun(run, uid, i);
    run := TurnBackRun(run, Last(run).record.value);
    assert !Settleable(Last(run), Last(run).record.value, 0);
  }

  /** Turns a removal back that has just begun, and withdraws its intent. */
  lemma TurnBackRun(begun: History, r: Record) returns (run: History)
    requires IsRun(begun) && Last(begun).record == Some(r) && r.kind.Remove? && r.disposition.Forward?
    requires r.phase.IntentRecorded? && Last(begun).removal.None?
    requires Last(begun).intent.Some? && Last(begun).intent.value.generation == r.generation
    ensures IsRun(run) && run.worlds[0] == begun.worlds[0]
    ensures Last(run) == Last(begun).(record := Some(r.(disposition := Rollback, phase := Settling)), intent := None,
              past := Last(begun).past.(rolledBack := Last(begun).past.rolledBack + {r.generation}))
  {
    run := Extend(begun, RolledBack,
                  Last(begun).(record := Some(r.(disposition := Rollback, phase := Settling)),
                               past := Last(begun).past.(rolledBack := Last(begun).past.rolledBack + {r.generation})));
    run := Extend(run, IntentCleared, Last(run).(intent := None));
  }

  // ---- an intent in the way of a successor ----

  /** An upgrade prepared but not yet withdrawn cannot be finished for a user who is enabled and logged in. */
  lemma SuccessorKeptOut(w: World, uid: Uid, u: Generation, source: Version, target: Version) returns (run: History)
    requires OneUser(w, uid) && w.acks[uid].enabled && IsUuid(u)
    ensures IsRun(run) && run.worlds[0] == w && Last(run).record.Some? && Last(run).intent.Some?
    ensures !Finishable(Last(run), Upgrade, target) && Finishable(Last(run).(intent := None), Upgrade, target)
  {
    PristineInv(w);
    var i := NewIntent(Upgrade, source, target, u);
    run := BeginRun(Start(w), uid, i);
    var r := Last(run).record.value;
    assert Addressed(r, EffectOp.Stop, uid) && Addressed(r, Suppress, uid) by {
      assert r.participants[0].uid == uid;
    }
    run := Extend(run, EffectRun(EffectOp.Stop, uid), Quieted(Last(run), uid));
    run := Extend(run, EffectRun(Suppress, uid), Suppressed(Last(run), uid));
    run := StopUserRun(run, r, uid);
  }

  lemma StopUserRun(begun: History, r: Record, uid: Uid) returns (run: History)
    requires IsRun(begun) && Last(begun).record == Some(r) && r.kind.Upgrade? && r.phase.IntentRecorded?
    requires |r.participants| == 1 && r.participants[0].uid == uid
    requires uid !in Last(begun).enabled && uid !in Last(begun).registered
    ensures IsRun(run) && run.worlds[0] == begun.worlds[0]
    ensures Last(run) == Last(begun).(controllers := Last(begun).controllers + {r.generation},
                                      record := Some(r.(phase := PublishersStopped)))
  {
    run := Extend(begun, ControllerPrepared(r.generation),
                  Last(begun).(controllers := Last(begun).controllers + {r.generation}));
    run := Extend(run, StopsRecorded, Last(run).(record := Some(r.(phase := PublishersStopped))));
  }
}
