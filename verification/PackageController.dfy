/** The controller's entry point, and every history of actions, faults and events of the machine. */
module PackageController {
  import opened Faults
  import opened Wrappers
  import opened Text
  import opened PackageTypes
  import opened PackageWorld
  import opened PackageInvariant
  import opened PackageStuck
  import opened PackageConditions
  import opened PackageControl
  import opened PackageActions
  import opened PackagePurge

  datatype Action =
    | Initialize
    | PrepareUpgrade(source: Version, target: Version)
    | FinishUpgrade(target: Version)
    | AbortRemove(target: Version)
    | PrepareRemove(target: Version)
    | FinishRemove(target: Version)
    | FinishPurge(target: Version)
    | RecoverInstall(target: Version)
    | PrepareReinstall(target: Version)
    | AdoptBootstrap

  predicate IsPurging(w: World) {
    w.record.Some? && w.record.value.kind.Purge?
  }

  predicate IsRollingBack(w: World) {
    w.record.Some? && w.record.value.disposition.Rollback?
  }

  /** A rollback or a purge is on record while an intent of another operation is pending. */
  predicate Wedged(w: World) {
    Closed(w) && w.intent.Some? && w.intent.value.generation != w.record.value.generation
  }

  /** Preparing anything while a rollback or a purge is interrupted announces an intent that nothing will clear. */
  predicate Wedging(w: World, a: Action) {
    && Closed(w) && w.intent.None?
    && (a.PrepareRemove? || (a.PrepareUpgrade? && ValidVersion(a.source)))
    && ValidVersion(a.target)
  }

  /** The states from which the action succeeds when nothing fails. */
  predicate Performable(w: World, a: Action) {
    match a
    case Initialize => true
    case PrepareUpgrade(source, target) => Announceable(w, Upgrade, source, target)
    case PrepareRemove(target) => Announceable(w, Remove, target, target)
    case FinishUpgrade(target) => Finishable(w, Upgrade, target)
    case AbortRemove(target) => Abortable(w, target)
    case FinishRemove(target) => !IsRollingBack(w) && Finishable(w, Remove, target)
    case FinishPurge(target) => Purgeable(w, target)
    case RecoverInstall(target) => Finishable(w, Upgrade, target) || Finishable(w, Reinstall, target)
    case PrepareReinstall(target) => ReinstallRequestable(w, target)
    case AdoptBootstrap => BootstrapAdoptable(w)
  }

  /** No action ends a stuck reinstall; at most it is prepared once more. */
  lemma StuckRefuses(w: World, a: Action)
    requires Inv(w) && Stuck(w) && Performable(w, a)
    ensures a.Initialize? || (a.PrepareReinstall? && w.record.value.phase.PublishersStopped?)
  {
  }

  /** An action that reported a failure has nevertheless done all it had to do. */
  predicate Done(w: World, a: Action, w': World) {
    match a
    case PrepareUpgrade(source, target) => Withdrawn(w', Upgrade, source, target)
    case PrepareRemove(target) => Withdrawn(w', Remove, target, target)
    case AdoptBootstrap => BootstrapAdopted(w, w')
    case _ =>
      (a.FinishUpgrade? || a.FinishRemove? || a.RecoverInstall?) && w.record.Some? && Completed(w, w', w.record.value)
  }

  /** Finishes whatever install is on record. */
  method FinishInstall(store: PackageStore, target: Version) returns (o: Outcome<PackageError>)
    requires store.Valid() && store.exclusiveController
    modifies store
    ensures store.Valid() && store.Grew()
    ensures o.Pass? ==>
              && old(store.disk).record.Some?
              && (old(store.disk).record.value.kind.Upgrade? || old(store.disk).record.value.kind.Reinstall?)
              && Completed(old(store.disk), store.disk, old(store.disk).record.value)
    ensures !store.faulty ==>
              (o.Pass? <==>
               Finishable(old(store.disk), Upgrade, target) || Finishable(old(store.disk), Reinstall, target))
    ensures o.Fail? && store.Still()
            && (Finishable(old(store.disk), Upgrade, target) || Finishable(old(store.disk), Reinstall, target)) ==>
              || Finishable(store.disk, Upgrade, target) || Finishable(store.disk, Reinstall, target)
              || Completed(old(store.disk), store.disk, old(store.disk).record.value)
    ensures o.Pass? ==> old(store.disk).record.value.targetVersion == target
    ensures old(store.disk).record.None? || old(store.disk).record.value.targetVersion != target ==>
              o.Fail? && store.disk == old(store.disk)
    ensures Closed(old(store.disk)) ==> o.Fail? && store.disk == old(store.disk)
  {
    if store.disk.record.None? {
      return Fail(Conflict);
    }
    match store.disk.record.value.kind {
      case Upgrade =>
        o := store.Finish(Upgrade, target);
      case Reinstall =>
        o := store.Finish(Reinstall, target);
      case Remove =>
        o := Fail(Conflict);
      case Purge =>
        o := Fail(Conflict);
    }
  }

  method FinishForwardRemoval(store: PackageStore, target: Version) returns (o: Outcome<PackageError>)
    requires store.Valid() && store.exclusiveController
    modifies store
    ensures store.Valid() && store.Grew()
    ensures o.Pass? ==>
              && old(store.disk).record.Some? && !Closed(old(store.disk))
              && Completed(old(store.disk), store.disk, old(store.disk).record.value)
    ensures o.Pass? ==>
              && old(store.disk).record.value.kind == Remove && old(store.disk).record.value.disposition == Forward
              && old(store.disk).record.value.targetVersion == target
    ensures old(store.disk).record.None? || old(store.disk).record.value.targetVersion != target ==>
              o.Fail? && store.disk == old(store.disk)
    ensures Closed(old(store.disk)) ==> o.Fail? && store.disk == old(store.disk)
    ensures !store.faulty ==>
              (o.Pass? <==> !IsRollingBack(old(store.disk)) && Finishable(old(store.disk), Remove, target))
    ensures o.Fail? && store.Still()
            && !IsRollingBack(old(store.disk)) && Finishable(old(store.disk), Remove, target) ==>
              || (!IsRollingBack(store.disk) && Finishable(store.disk, Remove, target))
              || Completed(old(store.disk), store.disk, old(store.disk).record.value)
  {
    if IsRollingBack(store.disk) {
      return Fail(Conflict);
    }
    o := store.Finish(Remove, target);
  }

  /** The actions that announce an operation. */
  method PerformAnnouncement(store: PackageStore, a: Action, uuid: Generation) returns (o: Outcome<PackageError>)
    requires store.Valid() && store.exclusiveController && IsUuid(uuid) && uuid !in store.disk.past.issued
    requires a.PrepareUpgrade? || a.PrepareRemove?
    modifies store
    ensures store.Valid() && store.Grew()
    ensures Wedged(old(store.disk)) ==> o.Fail? && SameWedge(old(store.disk), store.disk)
    ensures !store.faulty && Wedging(old(store.disk), a) ==> Wedged(store.disk)
    ensures !store.faulty ==> (o.Pass? <==> Performable(old(store.disk), a))
    ensures o.Fail? && store.Still() && Performable(old(store.disk), a) ==>
              Performable(store.disk, a) || Done(old(store.disk), a, store.disk)
    ensures store.Still() && a.PrepareRemove? && MayBeTurnedBack(old(store.disk), a.target) ==>
              Abortable(store.disk, a.target)
  {
    if a.PrepareUpgrade? {
      o := store.PrepareAnnounced(Upgrade, a.source, a.target, uuid);
    } else {
      o := store.PrepareAnnounced(Remove, a.target, a.target, uuid);
    }
  }

  /** The actions that start an operation or take it to the point where users are stopped. */
  method PerformPreparation(store: PackageStore, a: Action, uuid: Generation) returns (o: Outcome<PackageError>)
    requires store.Valid() && store.exclusiveController && IsUuid(uuid) && uuid !in store.disk.past.issued
    requires a.PrepareUpgrade? || a.PrepareRemove? || a.PrepareReinstall? || a.AdoptBootstrap? || a.Initialize?
    modifies store
    ensures store.Valid() && store.Grew()
    ensures (IsPurging(old(store.disk)) || IsRollingBack(old(store.disk))) && a.PrepareReinstall? ==>
              o.Fail? && store.disk == old(store.disk)
    ensures Wedged(old(store.disk)) ==> (o.Fail? || a.Initialize?) && SameWedge(old(store.disk), store.disk)
    ensures !store.faulty && Wedging(old(store.disk), a) ==> Wedged(store.disk)
    ensures !store.faulty ==> (o.Pass? <==> Performable(old(store.disk), a))
    ensures o.Fail? && store.Still() && Performable(old(store.disk), a) ==>
              Performable(store.disk, a) || Done(old(store.disk), a, store.disk)
    ensures store.Still() && a.PrepareRemove? && MayBeTurnedBack(old(store.disk), a.target) ==>
              Abortable(store.disk, a.target)
  {
    if a.PrepareUpgrade? || a.PrepareRemove? {
      o := PerformAnnouncement(store, a, uuid);
    } else if a.PrepareReinstall? {
      o := PrepareReinstallAction(store, a.target, uuid);
    } else if a.AdoptBootstrap? {
      o := PackageActions.AdoptBootstrap(store);
    } else {
      o := Pass;
    }
  }

  predicate SameWedge(w: World, w': World) {
    && w'.record == w.record && (w.intent.Some? <==> w'.intent.Some?)
    && (w.intent.Some? ==> w'.intent.value.generation == w.intent.value.generation)
  }

  /** The actions that finish the operation on record without turning it back or purging it. */
  method PerformFinish(store: PackageStore, a: Action) returns (o: Outcome<PackageError>)
    requires store.Valid() && store.exclusiveController
    requires a.FinishUpgrade? || a.FinishRemove? || a.RecoverInstall?
    modifies store
    ensures store.Valid() && store.Grew()
    ensures IsPurging(old(store.disk)) || IsRollingBack(old(store.disk)) ==> o.Fail? && store.disk == old(store.disk)
    ensures Wedged(old(store.disk)) ==> (o.Fail? || a.Initialize?) && SameWedge(old(store.disk), store.disk)
    ensures o.Pass? && a.FinishUpgrade? ==>
              && old(store.disk).record.Some? && old(store.disk).record.value.kind == Upgrade
              && old(store.disk).record.value.targetVersion == a.target
    ensures o.Pass? && a.FinishRemove? ==>
              && old(store.disk).record.Some? && old(store.disk).record.value.kind == Remove
              && old(store.disk).record.value.disposition == Forward
              && old(store.disk).record.value.targetVersion == a.target
    ensures o.Pass? && a.RecoverInstall? ==>
              && old(store.disk).record.Some?
              && (old(store.disk).record.value.kind == Upgrade || old(store.disk).record.value.kind == Reinstall)
              && old(store.disk).record.value.targetVersion == a.target
    ensures (a.FinishUpgrade? || a.FinishRemove? || a.RecoverInstall?)
            && (old(store.disk).record.None? || old(store.disk).record.value.targetVersion != a.target) ==>
              o.Fail? && store.disk == old(store.disk)
    ensures !store.faulty ==> (o.Pass? <==> Performable(old(store.disk), a))
    ensures o.Fail? && store.Still() && Performable(old(store.disk), a) ==>
              Performable(store.disk, a) || Done(old(store.disk), a, store.disk)
  {
    match a {
      case FinishUpgrade(target) =>
        o := store.Finish(Upgrade, target);
      case FinishRemove(target) =>
        o := FinishForwardRemoval(store, target);
      case RecoverInstall(target) =>
        o := FinishInstall(store, target);
    }
  }

  /** One run of the controller, with both locks taken. */
  method Perform(store: PackageStore, a: Action, uuid: Generation) returns (o: Outcome<PackageError>)
    requires store.Valid() && store.exclusiveController && IsUuid(uuid) && uuid !in store.disk.past.issued
    modifies store
    ensures store.Valid() && store.Grew()
    ensures old(store.disk).record.Some? && old(store.disk).record.value.kind == Purge
            && (a.FinishUpgrade? || a.FinishRemove? || a.AbortRemove? || a.RecoverInstall? || a.PrepareReinstall?) ==>
              o.Fail? && store.disk == old(store.disk)
    ensures old(store.disk).record.Some? && old(store.disk).record.value.disposition == Rollback
            && (a.FinishUpgrade? || a.FinishRemove? || a.FinishPurge? || a.RecoverInstall? || a.PrepareReinstall?) ==>
              o.Fail? && store.disk == old(store.disk)
    ensures Wedged(old(store.disk)) ==> (o.Fail? || a.Initialize?) && SameWedge(old(store.disk), store.disk)
    ensures !store.faulty && Wedging(old(store.disk), a) ==> Wedged(store.disk)
    ensures o.Pass? && a.FinishUpgrade? ==>
              && old(store.disk).record.Some? && old(store.disk).record.value.kind == Upgrade
              && old(store.disk).record.value.targetVersion == a.target
    ensures o.Pass? && a.FinishRemove? ==>
              && old(store.disk).record.Some? && old(store.disk).record.value.kind == Remove
              && old(store.disk).record.value.disposition == Forward
              && old(store.disk).record.value.targetVersion == a.target
    ensures o.Pass? && a.RecoverInstall? ==>
              && old(store.disk).record.Some?
              && (old(store.disk).record.value.kind == Upgrade || old(store.disk).record.value.kind == Reinstall)
              && old(store.disk).record.value.targetVersion == a.target
    ensures (a.FinishUpgrade? || a.FinishRemove? || a.RecoverInstall?)
            && (old(store.disk).record.None? || old(store.disk).record.value.targetVersion != a.target) ==>
              o.Fail? && store.disk == old(store.disk)
    ensures !store.faulty ==> (o.Pass? <==> Performable(old(store.disk), a))
    ensures o.Fail? && store.Still() && Performable(old(store.disk), a) ==>
              Performable(store.disk, a) || Done(old(store.disk), a, store.disk)
    ensures store.Still() && a.PrepareRemove? && MayBeTurnedBack(old(store.disk), a.target) ==>
              Abortable(store.disk, a.target)
  {
    if a.FinishUpgrade? || a.FinishRemove? || a.RecoverInstall? {
      o := PerformFinish(store, a);
    } else if a.AbortRemove? {
      o := PackageActions.AbortRemove(store, a.target);
    } else if a.FinishPurge? {
      o := PackagePurge.FinishPurge(store, a.target);
    } else {
      o := PerformPreparation(store, a, uuid);
    }
  }

  function BootstrapAnnounced(w: World, i: QuiesceIntent): World {
    w.(intent := Some(i), past := Issue(w.past, i.generation, Upgrade))
  }

  function BootstrapQuiesced(w: World, i: QuiesceIntent): World {
    w.(intent := Some(i), quarantines := w.quarantines + {i.generation})
  }

  /** The post-removal script undoes the bootstrap; it may be cut short before the intent is gone. */
  method UnwindBootstrap(store: PackageStore)
    requires store.Valid() && store.exclusiveController && Unwindable(store.disk)
    modifies store
    ensures store.Valid() && store.Grew() && store.disk.record.None?
    ensures old(store.disk).intent.value.generation !in store.disk.quarantines
    ensures store.disk.intent.None? || store.disk.intent == old(store.disk).intent
  {
    var g := store.disk.intent.value.generation;
    store.Take(BootstrapUnwound(false), store.disk.(quarantines := store.disk.quarantines - {g}));
    var cutShort := Fault(true);
    if !cutShort {
      store.Take(BootstrapUnwound(true), store.disk.(intent := None));
    }
  }

  /** One step of the machine between two runs of the controller. */
  method MachineStep(store: PackageStore)
    requires store.Valid() && store.exclusiveController
    modifies store
    ensures store.Valid() && store.Grew()
    ensures Wedged(old(store.disk)) ==> SameWedge(old(store.disk), store.disk)
  {
    var uid: Uid, enable: bool, i: QuiesceIntent := *, *, *;
    var announced, quiesced := BootstrapAnnounced(store.disk, i), BootstrapQuiesced(store.disk, i);
    if {
      case true => store.SessionStep();
      case store.disk.record.None? =>
        store.Take(ChoiceMade(uid, enable), ChoiceApplied(store.disk, uid, enable));
      case i.kind.Upgrade? && i.bootstrap.Some? && i.bootstrap.value.phase.Quarantining? && store.disk.intent.None?
           && IsUuid(i.generation) && i.generation !in store.disk.past.issued =>
        store.Take(BootstrapWritten(i), announced);
      case i.kind.Upgrade? && i.bootstrap.Some? && i.bootstrap.value.phase.Quiesced?
           && store.disk.intent == Some(i.(bootstrap := Some(i.bootstrap.value.(phase := Quarantining)))) =>
        store.Take(BootstrapWritten(i), quiesced);
      case Unwindable(store.disk) =>
        UnwindBootstrap(store);
    }
  }

  /**
   * Any sequence of controller runs, each possibly cut short at any write or effect, and of events of the machine:
   * the states passed through form a run, so every theorem about runs holds of it. A wedged state is never left.
   */
  method Operate(store: PackageStore, rounds: nat)
    requires store.Valid() && store.exclusiveController
    modifies store
    ensures store.Valid() && store.Grew()
    ensures Wedged(old(store.disk)) ==> SameWedge(old(store.disk), store.disk)
  {
    for round := 0 to rounds
      invariant store.Valid() && store.Grew()
      invariant Wedged(old(store.disk)) ==> SameWedge(old(store.disk), store.disk)
    {
      var a: Action, uuid: Generation := *, *;
      if IsUuid(uuid) && uuid !in store.disk.past.issued {
        var _ := Perform(store, a, uuid);
      } else {
        MachineStep(store);
      }
    }
  }
}
