/** The actions built on preparing and finishing: turning a removal back, reinstalling, adopting a bootstrap. */
module PackageActions {
  import opened Wrappers
  import opened Text
  import opened PackageTypes
  import opened PackageWorld
  import opened PackageInvariant
  import opened PackageConditions
  import opened PackageControl

  // ---- abort-remove ----

  function TurnedBack(r: Record): Record {
    if r.disposition.Rollback? then r else r.(disposition := Rollback, phase := Settling)
  }

  lemma TurnedBackFinishable(w: World, w': World, r: Record, target: Version)
    requires Validate(r, Remove, target) && w'.record == Some(TurnedBack(r)) && w'.intent.None?
    requires r.disposition.Rollback? || r.phase.IntentRecorded? || r.phase.PublishersStopped?
    requires SameSessions(w, w') && w'.registered == w.registered
    ensures Finishable(w', Remove, target) <==> (r.phase.Finalizing? || UsersRestorable(w, r))
  {
    if !r.phase.Finalizing? {
      var r' := TurnedBack(r);
      forall i | 0 <= i < |r.participants|
        ensures Settleable(w', r', i) <==>
                Reachable(w, r.participants[i]) && (r.participants[i].uid in w.registered ==> r.participants[i].enabled)
      {
      }
    }
  }

  /** Turning back and withdrawing the intent, as far as they got, leave a removal that can still be turned back. */
  lemma TurnedBackAbortable(w: World, w': World, r: Record, target: Version)
    requires Abortable(w, target) && w.record == Some(r) && Inv(w')
    requires w' == w.(record := w'.record, intent := w'.intent, past := w'.past)
    requires w'.record == Some(r) || w'.record == Some(TurnedBack(r))
    requires w'.intent == w.intent || w'.intent.None?
    ensures Abortable(w', target)
  {
    if r.phase.Finalizing? {
      assert r.disposition.Rollback?;
    } else {
      assert UsersRestorable(w', w'.record.value) <==> UsersRestorable(w, r);
    }
  }

  /** A rollback that can still be finished can still be asked for again. */
  lemma FinishableRollbackAbortable(w: World, target: Version)
    requires Inv(w) && Finishable(w, Remove, target) && w.record.value.disposition.Rollback? && w.intent.None?
    requires ValidVersion(target) && w.record.value.sourceVersion == target
    ensures Abortable(w, target)
  {
    TurnedBackFinishable(w, w, w.record.value, target);
  }

  /** Makes the turn durable. */
  method RecordRollback(store: PackageStore, r: Record) returns (o: Outcome<PackageError>)
    requires store.Valid() && store.exclusiveController && store.disk.record == Some(r)
    requires MayRollBack(store.disk, r, r.targetVersion)
    modifies store
    ensures store.Valid() && store.Grew()
    ensures store.disk == old(store.disk) || store.disk == RolledBackWorld(old(store.disk), r)
    ensures o.Pass? ==> store.disk == RolledBackWorld(old(store.disk), r)
    ensures !store.faulty ==> o.Pass?
  {
    if r.disposition.Rollback? {
      assert store.disk == RolledBackWorld(store.disk, r);
      return Pass;
    }
    :- store.LockParticipants(r);
    o := store.Commit(RolledBack, RolledBackWorld(store.disk, r));
  }

  function RolledBackWorld(w: World, r: Record): World {
    w.(record := Some(TurnedBack(r)), past := w.past.(rolledBack := w.past.rolledBack + {r.generation}))
  }

  method ClearIntent(store: PackageStore, intent: Option<QuiesceIntent>) returns (o: Outcome<PackageError>)
    requires store.Valid() && store.exclusiveController && store.disk.intent == intent
    requires intent.Some? ==> IntentClearedStep(store.disk, store.disk.(intent := None))
    modifies store
    ensures store.Valid() && store.Grew()
    ensures store.disk == old(store.disk) || store.disk == old(store.disk).(intent := None)
    ensures o.Pass? ==> store.disk == old(store.disk).(intent := None)
    ensures !store.faulty ==> o.Pass?
  {
    if intent.Some? {
      o := store.ClearQuiesce(intent.value.generation);
    } else {
      assert store.disk == store.disk.(intent := None);
      o := Pass;
    }
  }

  /** Makes the turn durable, then withdraws the removal's intent. */
  method WithdrawRemoval(store: PackageStore, r: Record, target: Version) returns (o: Outcome<PackageError>)
    requires store.Valid() && store.exclusiveController && store.disk.record == Some(r)
    requires ValidVersion(target) && RemovalIntent(store.disk, target) && MayRollBack(store.disk, r, target)
    modifies store
    ensures store.Valid() && store.Grew()
    ensures store.disk ==
            old(store.disk).(record := store.disk.record, intent := store.disk.intent, past := store.disk.past)
    ensures o.Pass? ==> store.disk == RolledBackWorld(old(store.disk), r).(intent := None)
    ensures !store.faulty ==> o.Pass?
    ensures Abortable(old(store.disk), target) ==> Abortable(store.disk, target)
  {
    var intent := store.disk.intent;
    o := RecordRollback(store, r);
    if o.Pass? {
      o := ClearIntent(store, intent);
    }
    if Abortable(old(store.disk), target) {
      TurnedBackAbortable(old(store.disk), store.disk, r, target);
    }
  }

  /**
   * Turns an interrupted removal back and restores every user, including those never stopped; resumed, it finishes
   * the turn. It succeeds without faults exactly on the states `Abortable` describes.
   */
  method AbortRemove(store: PackageStore, target: Version) returns (o: Outcome<PackageError>)
    requires store.Valid() && store.exclusiveController
    modifies store
    ensures store.Valid() && store.Grew()
    ensures o.Pass? ==> store.disk.record.None? && store.disk.intent.None?
    ensures o.Pass? ==> store.disk.removal == old(store.disk).removal && store.disk.install == old(store.disk).install
    ensures o.Pass? && old(store.disk).record.Some? ==>
              && old(store.disk).record.value.kind.Remove?
              && old(store.disk).record.value.generation !in store.disk.controllers
              && forall i :: 0 <= i < |old(store.disk).record.value.participants| ==>
                   var p := old(store.disk).record.value.participants[i];
                   p.uid in store.disk.enabled <==> p.enabled
    ensures !(ValidVersion(target) && RemovalIntent(old(store.disk), target)
              && (old(store.disk).record.Some? ==> MayRollBack(old(store.disk), old(store.disk).record.value, target)))
            ==> o.Fail? && store.disk == old(store.disk)
    ensures old(store.disk).record.Some?
            && (|| old(store.disk).record.value.kind != Remove
                || old(store.disk).record.value.sourceVersion != target
                || old(store.disk).record.value.targetVersion != target) ==>
              o.Fail? && store.disk == old(store.disk)
    ensures old(store.disk).intent.Some?
            && (|| old(store.disk).intent.value.kind != Remove
                || old(store.disk).intent.value.sourceVersion != target
                || old(store.disk).intent.value.targetVersion != target
                || (old(store.disk).record.Some?
                    && old(store.disk).record.value.generation != old(store.disk).intent.value.generation)) ==>
              o.Fail? && store.disk == old(store.disk)
    ensures !store.faulty ==> (o.Pass? <==> Abortable(old(store.disk), target))
    ensures store.Still() && Abortable(old(store.disk), target) ==> Abortable(store.disk, target)
  {
    if !ValidVersion(target) || !RemovalIntent(store.disk, target) {
      return Fail(Conflict);
    }
    if store.disk.record.None? {
      o := ClearIntent(store, store.disk.intent);
      return;
    }
    var r := store.disk.record.value;
    if !MayRollBack(store.disk, r, target) {
      return Fail(Conflict);
    }
    o := WithdrawRemoval(store, r, target);
    if o.Pass? {
      ghost var turned := store.disk;
      TurnedBackFinishable(old(store.disk), turned, r, target);
      o := store.Finish(Remove, target);
      if store.Still() && Abortable(old(store.disk), target) && store.disk.record.Some? {
        FinishableRollbackAbortable(store.disk, target);
      }
    }
  }

  // ---- prepare-reinstall ----

  function ReinstallRecord(receipt: RemovalReceipt, target: Version, uuid: Generation): Record {
    Record(Forward, uuid, Reinstall, PublishersStopped, receipt.removedVersion, target, Some(receipt.producer),
           Settled(receipt.participants, Pending))
  }

  /** The record is this reinstall, before it has begun to settle. */
  predicate ResumesReinstall(r: Record, receipt: RemovalReceipt, target: Version) {
    Validate(r, Reinstall, target) && r == ReinstallRecord(receipt, target, r.generation)
  }

  predicate ReinstallPreparable(w: World, target: Version) {
    w.removal.Some? && (w.record.Some? ==> ResumesReinstall(w.record.value, w.removal.value, target))
  }

  function WithMovedController(w: World, r: Record, producer: Generation): World {
    w.(controllers := w.controllers - {producer} + {r.generation})
  }

  /** Renames the removal's controller to the reinstall's, unless that has happened. */
  method AdoptReinstallController(store: PackageStore, r: Record, producer: Generation)
    returns (o: Outcome<PackageError>)
    requires store.Valid() && store.exclusiveController && store.disk.record == Some(r)
    requires r.kind.Reinstall? && r.phase.PublishersStopped? && r.predecessor == Some(producer)
    modifies store
    ensures store.Valid() && store.Grew()
    ensures store.disk == old(store.disk) || store.disk == WithMovedController(old(store.disk), r, producer)
    ensures o.Pass? ==> r.generation in store.disk.controllers && producer !in store.disk.controllers
    ensures !store.faulty ==> o.Pass?
  {
    if r.generation in store.disk.controllers {
      assert producer !in store.disk.controllers;
      return Pass;
    }
    assert producer in store.disk.controllers;
    o := store.Commit(ControllerMoved(producer, r.generation), WithMovedController(store.disk, r, producer));
  }

  /** Starts or resumes reinstalling what the removal receipt names. */
  method PrepareReinstall(store: PackageStore, target: Version, uuid: Generation) returns (o: Outcome<PackageError>)
    requires store.Valid() && store.exclusiveController
    requires IsUuid(uuid) && uuid !in store.disk.past.issued
    modifies store
    ensures store.Valid() && store.Grew()
    ensures store.disk.removal == old(store.disk).removal && store.disk.install == old(store.disk).install
    ensures store.disk.intent == old(store.disk).intent
    ensures o.Pass? ==>
              && store.disk.record.Some? && store.disk.removal.Some?
              && ResumesReinstall(store.disk.record.value, store.disk.removal.value, target)
              && store.disk.record.value.generation in store.disk.controllers
              && store.disk.removal.value.producer !in store.disk.controllers
    ensures o.Pass? ==>
              && store.disk.record.value.kind == Reinstall && store.disk.record.value.targetVersion == target
              && store.disk.record.value.sourceVersion == store.disk.removal.value.removedVersion
              && store.disk.record.value.predecessor == Some(store.disk.removal.value.producer)
              && SameChoices(store.disk.removal.value.participants, store.disk.record.value.participants)
    ensures old(store.disk).record.Some?
            && (|| old(store.disk).record.value.kind != Reinstall
                || old(store.disk).record.value.targetVersion != target) ==>
              o.Fail? && store.disk == old(store.disk)
    ensures !store.faulty ==> (o.Pass? <==> ReinstallPreparable(old(store.disk), target))
    ensures ReinstallPreparable(old(store.disk), target) ==> ReinstallPreparable(store.disk, target)
    ensures !ReinstallPreparable(old(store.disk), target) ==> store.disk == old(store.disk)
  {
    if store.disk.removal.None? {
      return Fail(Conflict);
    }
    var receipt := store.disk.removal.value;
    var r := ReinstallRecord(receipt, target, uuid);
    var isNew := store.disk.record.None?;
    if !isNew {
      r := store.disk.record.value;
      if !ResumesReinstall(r, receipt, target) {
        return Fail(Conflict);
      }
    }
    :- store.LockParticipants(r);
    if isNew {
      :- store.Commit(ReinstallCreated(r),
                      store.disk.(record := Some(r), past := Issue(store.disk.past, uuid, Reinstall)));
    }
    o := AdoptReinstallController(store, r, receipt.producer);
  }

  /** Completes a removal that was interrupted at any point. */
  method CompleteRemoval(store: PackageStore, uuid: Generation) returns (o: Outcome<PackageError>)
    requires store.Valid() && store.exclusiveController && IsUuid(uuid) && uuid !in store.disk.past.issued
    requires store.disk.record.Some? && store.disk.record.value.kind.Remove?
    modifies store
    ensures store.Valid() && store.Grew()
    ensures o.Pass? ==>
              && store.disk.record.None? && store.disk.removal.Some?
              && store.disk.past.issued == old(store.disk).past.issued
              && store.disk.removal.value.producer == old(store.disk).record.value.generation
              && SameChoices(old(store.disk).record.value.participants, store.disk.removal.value.participants)
    ensures old(store.disk).record.value.disposition.Rollback? ==> o.Fail? && store.disk == old(store.disk)
    ensures !store.faulty ==> (o.Pass? <==> RemovalCompletable(old(store.disk), old(store.disk).record.value))
    ensures store.Still() && o.Fail? && RemovalCompletable(old(store.disk), old(store.disk).record.value) ==>
              if store.disk.record.Some? then
                store.disk.record.value.kind.Remove? && RemovalCompletable(store.disk, store.disk.record.value)
              else store.disk.removal.Some?
  {
    var r := store.disk.record.value;
    o := store.Prepare(Remove, r.sourceVersion, r.targetVersion, uuid);
    if store.Still() && r.disposition.Forward? {
      StoppingKeepsCompletable(old(store.disk), store.disk, r);
    }
    if o.Pass? {
      o := store.Finish(Remove, r.targetVersion);
    }
  }

  /** The action: a removal interrupted half-way is completed first, then the reinstall is prepared. */
  method PrepareReinstallAction(store: PackageStore, target: Version, uuid: Generation)
    returns (o: Outcome<PackageError>)
    requires store.Valid() && store.exclusiveController
    requires IsUuid(uuid) && uuid !in store.disk.past.issued
    modifies store
    ensures store.Valid() && store.Grew()
    ensures o.Pass? ==>
              && store.disk.record.Some? && store.disk.removal.Some?
              && ResumesReinstall(store.disk.record.value, store.disk.removal.value, target)
              && store.disk.record.value.generation in store.disk.controllers
              && store.disk.removal.value.producer !in store.disk.controllers
    ensures o.Pass? && old(store.disk).record.Some? && old(store.disk).record.value.kind.Remove? ==>
              && store.disk.removal.value.producer == old(store.disk).record.value.generation
              && SameChoices(old(store.disk).record.value.participants, store.disk.record.value.participants)
    ensures old(store.disk).record.Some? && !MayPrecedeReinstall(old(store.disk).record.value) ==>
              o.Fail? && store.disk == old(store.disk)
    ensures !store.faulty ==> (o.Pass? <==> ReinstallRequestable(old(store.disk), target))
    ensures store.Still() && ReinstallRequestable(old(store.disk), target) ==> ReinstallRequestable(store.disk, target)
  {
    if store.disk.record.Some? {
      match store.disk.record.value.kind {
        case Remove =>
          :- CompleteRemoval(store, uuid);
        case Reinstall =>
        case Upgrade =>
          return Fail(Conflict);
        case Purge =>
          return Fail(Conflict);
      }
    }
    o := PrepareReinstall(store, target, uuid);
  }

  /** A reinstall can be prepared, or the removal in its way completed first, when nothing fails. */
  predicate ReinstallRequestable(w: World, target: Version) {
    if w.record.Some? && w.record.value.kind.Remove? then RemovalCompletable(w, w.record.value)
    else ReinstallPreparable(w, target)
  }

  predicate MayPrecedeReinstall(r: Record) {
    r.kind.Reinstall? || (r.kind.Remove? && r.disposition.Forward?)
  }

  // ---- adopt-bootstrap ----

  function AdoptedIntent(i: QuiesceIntent): QuiesceIntent
    requires i.bootstrap.Some?
  {
    i.(bootstrap := Some(i.bootstrap.value.(phase := Adopted)))
  }

  predicate BootstrapAdoptable(w: World) {
    && w.intent.Some? && w.intent.value.kind.Upgrade? && w.intent.value.bootstrap.Some?
    && (match w.intent.value.bootstrap.value.phase
        case Quarantining => false
        case Quiesced => w.intent.value.generation in w.quarantines
        case Adopted => true)
    && Preparable(w, w.intent.value)
  }

  /** The bootstrap's record is prepared, its executable deleted, its intent withdrawn. */
  predicate BootstrapAdopted(w: World, w': World) {
    && w.intent.Some? && w'.intent.None? && w.intent.value.generation !in w'.quarantines
    && w'.record.Some? && Carries(w'.record.value, w.intent.value) && !w'.record.value.phase.IntentRecorded?
  }

  /** Makes the adoption durable, deletes the legacy executable, then withdraws the intent: in that order. */
  method CompleteAdoption(store: PackageStore, intent: QuiesceIntent) returns (o: Outcome<PackageError>)
    requires store.Valid() && store.exclusiveController && store.disk.intent == Some(intent)
    requires intent.kind.Upgrade? && intent.bootstrap.Some? && !intent.bootstrap.value.phase.Quarantining?
    requires store.disk.record.Some? && store.disk.record.value.generation == intent.generation
    requires !store.disk.record.value.phase.IntentRecorded?
    modifies store
    ensures store.Valid() && store.Grew()
    ensures store.disk.record == old(store.disk).record
    ensures o.Pass? ==> store.disk.intent.None? && intent.generation !in store.disk.quarantines
    ensures Preparable(old(store.disk), intent)
            && (intent.bootstrap.value.phase.Quiesced? ==> intent.generation in old(store.disk).quarantines) ==>
              BootstrapAdoptable(store.disk) || store.disk.intent.None?
    ensures store.disk.intent.None? ==> intent.generation !in store.disk.quarantines
    ensures !store.faulty ==> o.Pass?
  {
    var adopted := AdoptedIntent(intent);
    if !intent.bootstrap.value.phase.Adopted? {
      :- store.Commit(IntentAdopted, store.disk.(intent := Some(adopted)));
    }
    if intent.generation in store.disk.quarantines {
      :- store.Commit(QuarantineDeleted(intent.generation),
                      store.disk.(quarantines := store.disk.quarantines - {intent.generation}));
    }
    o := store.ClearQuiesce(intent.generation);
  }

  method AdoptBootstrap(store: PackageStore) returns (o: Outcome<PackageError>)
    requires store.Valid() && store.exclusiveController
    modifies store
    ensures store.Valid() && store.Grew()
    ensures o.Pass? ==> BootstrapAdopted(old(store.disk), store.disk)
    ensures o.Pass? ==>
              && old(store.disk).intent.Some? && store.disk.intent.None? && store.disk.record.Some?
              && store.disk.record.value.generation == old(store.disk).intent.value.generation
              && store.disk.record.value.kind == Upgrade && store.disk.record.value.disposition == Forward
              && store.disk.record.value.sourceVersion == old(store.disk).intent.value.sourceVersion
              && store.disk.record.value.targetVersion == old(store.disk).intent.value.targetVersion
              && old(store.disk).intent.value.generation !in store.disk.quarantines
    ensures old(store.disk).intent.None? || old(store.disk).intent.value.bootstrap.None?
            || old(store.disk).intent.value.bootstrap.value.phase == Quarantining
            || (old(store.disk).intent.value.bootstrap.value.phase == Quiesced
                && old(store.disk).intent.value.generation !in old(store.disk).quarantines) ==>
              o.Fail? && store.disk == old(store.disk)
    ensures !store.faulty ==> (o.Pass? <==> BootstrapAdoptable(old(store.disk)))
    ensures store.Still() && o.Fail? && BootstrapAdoptable(old(store.disk)) ==>
              BootstrapAdoptable(store.disk) || BootstrapAdopted(old(store.disk), store.disk)
    ensures old(store.disk).record.Some? && old(store.disk).intent.Some?
            && !Carries(old(store.disk).record.value, old(store.disk).intent.value) ==>
              o.Fail? && store.disk == old(store.disk)
  {
    if store.disk.intent.None? || !store.disk.intent.value.kind.Upgrade? {
      return Fail(Conflict);
    }
    var intent := store.disk.intent.value;
    if intent.bootstrap.None? {
      return Fail(Conflict);
    }
    match intent.bootstrap.value.phase {
      case Quarantining =>
        return Fail(Conflict);
      case Quiesced =>
        if intent.generation !in store.disk.quarantines {
          return Fail(Conflict);
        }
      case Adopted =>
    }
    :- store.PrepareFromIntent(intent);
    o := CompleteAdoption(store, intent);
  }
}
