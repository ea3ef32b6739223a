/**
 * The package operation controller. `PackageStore` is the package root together with the users' managers; its methods
 * are the actions, statement for statement. Every durable write and every effect is one step of PackageWorld appended
 * to the ghost `run`, and any of them may report a failure before or after it took hold, so a returned error also
 * stands for a crash at that point.
 */
module PackageControl {
  import opened Faults
  import opened Runs
  import opened Wrappers
  import opened Text
  import opened PackageTypes
  import opened PackageWorld
  import opened PackageInvariant
  import opened PackageRuns
  import opened PackageConditions

  class PackageStore {
    var disk: World
    ghost var run: History
    const faulty: bool               // whether writes and effects may fail
    const drifting: bool             // whether, where things may fail, users also come and go during an action
    const exclusiveController: bool  // whether every writer of the record takes the controller lock

    /** A store over whatever a correct history has left on disk. */
    constructor (disk: World, faulty: bool, drifting: bool, exclusiveController: bool)
      requires Inv(disk)
      ensures Valid() && this.disk == disk && run == Start(disk)
      ensures this.faulty == faulty && this.drifting == drifting && this.exclusiveController == exclusiveController
    {
      this.disk, this.run := disk, Start(disk);
      this.faulty, this.drifting, this.exclusiveController := faulty, drifting, exclusiveController;
    }

    ghost predicate Valid()
      reads this
    {
      exclusiveController ==> IsRun(run) && Last(run) == disk && Inv(disk)
    }

    twostate predicate Grew()
      reads this
    {
      Continues(old(run), run)
    }

    /** Nobody comes or goes during an action. */
    predicate Still() {
      !(faulty && drifting)
    }

    /** A step that certainly happens. */
    method Take(ghost e: Event, next: World)
      requires Valid() && (exclusiveController ==> Step(disk, e, next))
      modifies this
      ensures Valid() && Grew() && disk == next
    {
      if exclusiveController {
        StepKeepsInv(disk, e, next);
        run := Extend(run, e, next);
      }
      disk := next;
    }

    /** A durable write: it may fail before the rename, or only report a failure after it. */
    method Commit(ghost e: Event, next: World) returns (o: Outcome<PackageError>)
      requires Valid() && (exclusiveController ==> Step(disk, e, next))
      modifies this
      ensures Valid() && Grew()
      ensures disk == next || (o.Fail? && disk == old(disk))
      ensures !faulty ==> o.Pass?
    {
      var before := Fault(faulty);
      if before {
        return Fail(Storage);
      }
      Take(e, next);
      var after := Fault(faulty);
      o := if after then Fail(Storage) else Pass;
    }

    // ---- users coming and going ----

    /** A provider passes startup admission and registers. */
    method AdmittedStart(uid: Uid, asSuccessor: bool)
      requires Valid()
      requires exclusiveController ==>
                 uid in disk.runtime && AdmitsStart(disk, uid) && (asSuccessor ==> uid in disk.enabled)
      modifies this
      ensures Valid() && Grew()
      ensures disk == old(disk).(registered := old(disk).registered + {uid},
                                 ready := if asSuccessor then old(disk).ready + {uid} else old(disk).ready)
    {
      Take(ProviderStarted(uid, asSuccessor),
           disk.(registered := disk.registered + {uid},
                 ready := if asSuccessor then disk.ready + {uid} else disk.ready));
    }

    /** A user acknowledges, moves a directory, or switches the background mode. */
    method Adjustment()
      requires Valid()
      modifies this
      ensures Valid() && Grew() && Drifted(old(disk), disk)
    {
      var uid: Uid, ack: Ack, misplaced: set<Uid>, switching: set<Uid> := *, *, *, *;
      if {
        case true =>
          Take(SettingsChanged(misplaced, switching), disk.(misplaced := misplaced, switching := switching));
        case true =>
          Take(Acknowledged(uid, ack), disk.(acks := disk.acks[uid := ack]));
      }
    }

    /** A user logs in, or a provider that is admitted starts. */
    method Arrival()
      requires Valid()
      modifies this
      ensures Valid() && Grew() && Drifted(old(disk), disk)
    {
      var uid: Uid, identity: Identity, asSuccessor: bool := *, *, *;
      if uid !in disk.runtime {
        Take(LoggedIn(uid, identity), disk.(runtime := disk.runtime[uid := identity]));
      } else if AdmitsStart(disk, uid) && (asSuccessor ==> uid in disk.enabled) {
        AdmittedStart(uid, asSuccessor);
      }
    }

    /** A user logs out, or a provider ends. */
    method Departure()
      requires Valid()
      modifies this
      ensures Valid() && Grew() && Drifted(old(disk), disk)
    {
      var uid: Uid := *;
      if {
        case true => Take(LoggedOut(uid), Quieted(disk, uid).(runtime := disk.runtime - {uid}));
        case true => Take(ProviderGone(uid), Quieted(disk, uid));
      }
    }

    /** One step of a user's session or provider. */
    method SessionStep()
      requires Valid()
      modifies this
      ensures Valid() && Grew() && Drifted(old(disk), disk)
    {
      if {
        case true => Arrival();
        case true => Departure();
        case true => Adjustment();
      }
    }

    /** Meanwhile users log in and out, and their providers come, acknowledge and go. */
    method Drift()
      requires Valid()
      modifies this
      ensures Valid() && Grew()
      ensures Drifted(old(disk), disk) && (Still() ==> disk == old(disk))
    {
      var steps: int := 0;
      if !Still() {
        steps := *;
      }
      while steps > 0
        invariant Valid() && Grew() && Drifted(old(disk), disk)
        invariant Still() ==> steps == 0 && disk == old(disk)
      {
        SessionStep();
        steps := steps - 1;
      }
    }

    method LockParticipants(r: Record) returns (o: Outcome<PackageError>)
      ensures !faulty ==> o.Pass?
    {
      var fault := Fault(faulty);
      o := if fault then Fail(Storage) else Pass;
    }

    // ---- effects on one user ----

    method RefreshRuntime(r: Record, i: nat) returns (found: Result<Option<Identity>, PackageError>)
      requires Valid() && i < |r.participants| && (exclusiveController ==> disk.record == Some(r))
      requires r.participants[i].settlement.Pending?
      modifies this
      ensures Valid() && Grew() && Drifted(old(disk), disk) && (Still() ==> disk == old(disk))
      ensures !faulty ==> found.Ok?
      ensures found.Ok? ==> found.value == if r.participants[i].uid in disk.runtime
                                           then Some(disk.runtime[r.participants[i].uid]) else None
    {
      Drift();
      var uid := r.participants[i].uid;
      var fault := Fault(faulty);
      if fault {
        return Err(Conflict);
      }
      assert Addressed(r, Refresh, uid);
      Take(EffectRun(Refresh, uid), disk);
      found := Ok(if uid in disk.runtime then Some(disk.runtime[uid]) else None);
    }

    method Stop(r: Record, i: nat) returns (o: Outcome<PackageError>)
      requires Valid() && i < |r.participants| && (exclusiveController ==> disk.record == Some(r))
      requires r.participants[i].settlement.Pending?
      modifies this
      ensures Valid() && Grew() && Drifted(old(disk), disk)
      ensures Still() ==> disk == old(disk) || disk == Quieted(old(disk), r.participants[i].uid)
      ensures Still() && o.Pass? && exclusiveController ==> disk == Quieted(old(disk), r.participants[i].uid)
      ensures o.Pass? ==> DirectoriesValid(disk, r.participants[i])
      ensures o.Pass? && exclusiveController ==> r.participants[i].uid !in disk.registered
      ensures Still() ==>
                && disk.enabled == old(disk).enabled && disk.record == old(disk).record
                && disk.registered - {r.participants[i].uid} == old(disk).registered - {r.participants[i].uid}
                && disk.ready - {r.participants[i].uid} == old(disk).ready - {r.participants[i].uid}
      ensures !faulty && DirectoriesValid(old(disk), r.participants[i]) ==> o.Pass?
    {
      Drift();
      var p := r.participants[i];
      if !DirectoriesValid(disk, p) {
        return Fail(Conflict);
      }
      if p.uid !in disk.runtime {
        return Pass;
      }
      var before := Fault(faulty);
      if before {
        return Fail(Manager);
      }
      assert Addressed(r, EffectOp.Stop, p.uid);
      Take(EffectRun(EffectOp.Stop, p.uid), Quieted(disk, p.uid));
      var after := Fault(faulty);
      o := if after then Fail(Manager) else Pass;
    }

    method Suppress(r: Record, i: nat) returns (o: Outcome<PackageError>)
      requires Valid() && i < |r.participants| && (exclusiveController ==> disk.record == Some(r))
      requires r.participants[i].settlement.Pending? && r.phase.IntentRecorded?
      modifies this
      ensures Valid() && Grew() && Calmed(old(disk), disk) && disk.record == old(disk).record
      ensures Still() ==> disk == old(disk) || disk == Suppressed(old(disk), r.participants[i].uid)
      ensures Still() && o.Pass? ==> disk == Suppressed(old(disk), r.participants[i].uid)
      ensures o.Pass? ==> r.participants[i].uid !in disk.enabled
      ensures Still() ==>
                && disk.registered == old(disk).registered
                && disk.enabled - {r.participants[i].uid} == old(disk).enabled - {r.participants[i].uid}
      ensures !faulty ==> (o.Pass? <==> DirectoriesValid(old(disk), r.participants[i]))
    {
      Drift();
      var p := r.participants[i];
      if !DirectoriesValid(disk, p) {
        return Fail(Conflict);
      }
      var before := Fault(faulty);
      if before {
        return Fail(Manager);
      }
      assert Addressed(r, EffectOp.Suppress, p.uid);
      Take(EffectRun(EffectOp.Suppress, p.uid), Suppressed(disk, p.uid));
      var after := Fault(faulty);
      o := if after then Fail(Manager) else Pass;
    }

    /** Nothing is cleaned up: a registration that is still there is a conflict. */
    method Cleanup(r: Record, i: nat) returns (o: Outcome<PackageError>)
      requires Valid() && i < |r.participants| && (exclusiveController ==> disk.record == Some(r))
      requires r.participants[i].settlement.Pending? || r.kind.Purge?
      modifies this
      ensures Valid() && Grew() && Drifted(old(disk), disk) && (Still() ==> disk == old(disk))
      ensures o.Pass? ==> DirectoriesValid(disk, r.participants[i]) && r.participants[i].uid !in disk.registered
      ensures !faulty ==>
                (o.Pass? <==> DirectoriesValid(disk, r.participants[i]) && r.participants[i].uid !in disk.registered)
      ensures !faulty ==>
                (o.Pass? <==>
                 var p := r.participants[i];
                 && p.uid !in disk.registered && p.uid !in disk.misplaced
                 && (p.uid in disk.runtime ==>
                       && p.runtimeDevice == Some(disk.runtime[p.uid].device)
                       && p.runtimeInode == Some(disk.runtime[p.uid].inode)))
    {
      Drift();
      var p := r.participants[i];
      if !DirectoriesValid(disk, p) {
        return Fail(Conflict);
      }
      var fault := Fault(faulty);
      if fault {
        return Fail(Storage);
      }
      assert Addressed(r, EffectOp.Cleanup, p.uid);
      Take(EffectRun(EffectOp.Cleanup, p.uid), disk);
      o := if p.uid in disk.registered then Fail(Conflict) else Pass;
    }

    method RecoverPending(r: Record, i: nat) returns (found: Result<Recovery, PackageError>)
      requires Valid() && i < |r.participants| && (exclusiveController ==> disk.record == Some(r))
      requires r.participants[i].settlement.Pending?
      modifies this
      ensures Valid() && Grew() && Drifted(old(disk), disk) && (Still() ==> disk == old(disk))
      ensures found.Ok? ==> found.value == RecoveryOf(disk, r.participants[i])
      ensures found.Ok? ==>
                var p := r.participants[i];
                && (p.enabled && p.uid in disk.runtime && p.uid in disk.ready <==> found.value == Ready(SuccessorReady))
                && (p.enabled && p.uid in disk.runtime && p.uid !in disk.ready && p.uid in disk.registered <==>
                    found.value == StopAndRetry)
                && (found.value.Ready? ==> found.value == Ready(SuccessorReady))
      ensures !faulty ==> found.Ok?
    {
      Drift();
      var p := r.participants[i];
      if !p.enabled || p.uid !in disk.runtime {
        return Ok(Absent);
      }
      var fault := Fault(faulty);
      if fault {
        return Err(Manager);
      }
      assert Addressed(r, Recover, p.uid);
      Take(EffectRun(Recover, p.uid), disk);
      found := Ok(RecoveryOf(disk, p));
    }

    method ConfirmRestored(r: Record, i: nat, s: Settlement) returns (o: Outcome<PackageError>)
      requires Valid() && i < |r.participants| && (exclusiveController ==> disk.record == Some(r))
      requires r.participants[i].settlement.Pending?
      modifies this
      ensures Valid() && Grew() && Drifted(old(disk), disk) && (Still() ==> disk == old(disk))
      ensures o.Pass? ==> Confirmed(disk, r.participants[i], s)
      ensures !faulty ==> (o.Pass? <==> Confirmed(disk, r.participants[i], s))
      ensures !faulty && DirectoriesValid(disk, r.participants[i]) ==>
                var p := r.participants[i];
                (o.Pass? <==>
                 || (p.enabled && s == SuccessorReady && p.uid in disk.runtime && p.uid in disk.ready)
                 || (p.enabled && s == DeferredEnabled && p.uid !in disk.runtime && p.uid in disk.enabled)
                 || (!p.enabled && s == Disabled && p.uid !in disk.enabled))
    {
      Drift();
      var p := r.participants[i];
      var fault := Fault(faulty);
      if fault {
        return Fail(Manager);
      }
      assert Addressed(r, Confirm, p.uid);
      Take(EffectRun(Confirm, p.uid), disk);
      o := if Confirmed(disk, p, s) then Pass else Fail(Conflict);
    }

    /** Gives the user the recorded choice back and, for a logged-in user, waits for the successor to register. */
    method Restore(r: Record, i: nat) returns (settlement: Result<Settlement, PackageError>)
      requires Valid() && i < |r.participants| && (exclusiveController ==> disk.record == Some(r))
      requires r.participants[i].settlement.Pending? && Restoring(r) && r.phase.Settling?
      modifies this
      ensures Valid() && Grew()
      ensures SameFiles(old(disk), disk) && disk.record == old(disk.record)
      ensures settlement.Ok? ==> settlement.value == RestoredSettlement(old(disk), r.participants[i])
      ensures settlement.Ok? ==> disk == Restored(old(disk), r.participants[i])
      ensures settlement.Ok? ==>
                var p := r.participants[i];
                && (p.uid in disk.enabled <==> p.enabled)
                && (p.enabled && p.uid in disk.runtime ==>
                      settlement.value == SuccessorReady && p.uid in disk.registered && p.uid in disk.ready)
                && (p.enabled && p.uid !in disk.runtime ==> settlement.value == DeferredEnabled)
                && (!p.enabled ==> settlement.value == Disabled && disk.registered == old(disk).registered)
      ensures UserTurn(old(disk), disk, r.participants[i], true)
      ensures !faulty && exclusiveController ==>
                (settlement.Ok? <==>
                 DirectoriesValid(old(disk), r.participants[i]) && SuccessorWelcome(old(disk), r.participants[i]))
    {
      var p := r.participants[i];
      if !DirectoriesValid(disk, p) {
        return Err(Conflict);
      }
      var before := Fault(faulty);
      if before {
        return Err(Manager);
      }
      assert Addressed(r, EffectOp.Restore, p.uid);
      Take(EffectRun(EffectOp.Restore, p.uid), ChoiceApplied(disk, p.uid, p.enabled));
      var after := Fault(faulty);
      if after {
        return Err(Manager);
      }
      if p.enabled && p.uid in disk.runtime {
        // the manager starts the successor, which registers only if startup admission lets it in
        var late := Fault(faulty);
        if late || disk.intent.Some? {
          return Err(Manager);
        }
        AdmittedStart(p.uid, true);
        return Ok(SuccessorReady);
      }
      settlement := Ok(if p.enabled then DeferredEnabled else Disabled);
    }

    /**
     * Restores one user with both locks released, so that the successor can pass startup admission, then takes the
     * locks again and compares the record with the one it released. A record changed meanwhile is left as it is.
     */
    method RestoreUnlocked(r: Record, i: nat) returns (settlement: Result<Settlement, PackageError>)
      requires Valid() && i < |r.participants| && (exclusiveController ==> disk.record == Some(r))
      requires r.participants[i].settlement.Pending? && Restoring(r) && r.phase.Settling?
      modifies this
      ensures Valid() && (exclusiveController ==> Grew())
      ensures SameFiles(old(disk), disk)
      ensures exclusiveController ==> disk.record == old(disk.record)
      ensures settlement.Ok? ==> Unchanged(disk.record, r)
      ensures !faulty && !Unchanged(disk.record, r) ==> settlement == Err(Conflict)
      ensures !faulty
              && (|| disk.record.None? || disk.record.value.generation != r.generation
                  || disk.record.value.kind != r.kind || disk.record.value.disposition != r.disposition
                  || disk.record.value.phase != Settling || disk.record.value.participants != r.participants) ==>
                settlement == Err(Conflict)
      ensures !faulty && exclusiveController ==>
                (settlement.Ok? <==>
                 DirectoriesValid(old(disk), r.participants[i]) && SuccessorWelcome(old(disk), r.participants[i]))
      ensures !faulty && settlement.Ok? && exclusiveController ==>
                && disk == Restored(old(disk), r.participants[i])
                && settlement.value == RestoredSettlement(old(disk), r.participants[i])
      ensures Still() ==> UserTurn(old(disk), disk, r.participants[i], true)
    {
      Drift();
      var restored := Restore(r, i);
      Drift();
      if !exclusiveController {
        var replacement: Option<Record> := *;
        disk := disk.(record := replacement);
      }
      var timeout := Fault(faulty);
      if timeout {
        return Err(Storage);
      }
      var locked := LockParticipants(r);
      if locked.Fail? {
        return Err(locked.error);
      }
      if !Unchanged(disk.record, r) {
        return Err(Conflict);
      }
      settlement := restored;
    }

    /** Records the runtime directory of a user who logged in since discovery. */
    method RecordRuntime(r: Record, i: nat) returns (o: Outcome<PackageError>, later: Record)
      requires Valid() && exclusiveController && i < |r.participants| && disk.record == Some(r)
      requires r.participants[i].settlement.Pending? && (r.phase.IntentRecorded? || r.phase.Settling?)
      modifies this
      ensures Valid() && Grew() && Calmed(old(disk), disk) && disk.enabled == old(disk).enabled
      ensures OnlyNoted(r, i, later) && (disk.record == Some(r) || disk.record == Some(later))
      ensures o.Pass? ==> disk.record == Some(later)
      ensures Still() ==> disk == old(disk) || disk == old(disk).(record := Some(RuntimeKnown(old(disk), r, i)))
      ensures Still() && o.Pass? ==> disk == old(disk).(record := Some(RuntimeKnown(old(disk), r, i)))
      ensures !faulty ==> o.Pass?
    {
      later := r;
      assert r.participants == r.participants[i := r.participants[i]];
      if r.participants[i].runtimeDevice.None? {
        var found := RefreshRuntime(r, i);
        if found.Err? {
          return Fail(found.error), later;
        }
        if found.value.Some? {
          later := WithRuntime(r, i, found.value.value.device, found.value.value.inode);
          Drift();
          o := Commit(RuntimeRecorded(i, found.value.value), disk.(record := Some(later)));
          return;
        }
      }
      o := Pass;
    }

    method RestoreAndConfirm(r: Record, i: nat) returns (settlement: Result<Settlement, PackageError>)
      requires Valid() && exclusiveController && i < |r.participants| && disk.record == Some(r)
      requires r.participants[i].settlement.Pending? && r.phase.Settling? && Restoring(r)
      modifies this
      ensures Valid() && Grew() && SameFiles(old(disk), disk) && disk.record == Some(r)
      ensures settlement.Ok? ==> Confirmed(disk, r.participants[i], settlement.value)
      ensures !faulty ==>
                (settlement.Ok? <==>
                 DirectoriesValid(old(disk), r.participants[i]) && SuccessorWelcome(old(disk), r.participants[i]))
      ensures Still() ==> UserTurn(old(disk), disk, r.participants[i], true)
    {
      settlement := RestoreUnlocked(r, i);
      if settlement.Ok? {
        var o := ConfirmRestored(r, i, settlement.value);
        if o.Fail? {
          return Err(o.error);
        }
      }
    }

    /** Makes sure that nothing of the user is registered and then, when restoring, gives the recorded choice back. */
    method CleanupAndRestore(r: Record, i: nat) returns (settlement: Result<Settlement, PackageError>)
      requires Valid() && exclusiveController && i < |r.participants| && disk.record == Some(r)
      requires r.participants[i].settlement.Pending? && r.phase.Settling?
      modifies this
      ensures Valid() && Grew() && SameFiles(old(disk), disk) && disk.record == Some(r)
      ensures settlement.Ok? ==>
                if Restoring(r) then Confirmed(disk, r.participants[i], settlement.value)
                else settlement.value.Disabled?
      ensures !faulty ==>
                (settlement.Ok? <==>
                 && DirectoriesValid(old(disk), r.participants[i]) && r.participants[i].uid !in old(disk).registered
                 && (Restoring(r) ==> SuccessorWelcome(old(disk), r.participants[i])))
      ensures Still() ==> UserTurn(old(disk), disk, r.participants[i], Restoring(r))
    {
      var o := Cleanup(r, i);
      if o.Fail? {
        return Err(o.error);
      }
      if !Restoring(r) {
        return Ok(Disabled);
      }
      settlement := RestoreAndConfirm(r, i);
    }

    /**
     * Settles one user: when restoring, gives the recorded choice back unless the successor turns out to be there
     * already; otherwise makes sure that nothing is registered.
     */
    method SettleUser(r: Record, i: nat) returns (settlement: Result<Settlement, PackageError>)
      requires Valid() && exclusiveController && i < |r.participants| && disk.record == Some(r)
      requires r.participants[i].settlement.Pending? && r.phase.Settling?
      modifies this
      ensures Valid() && Grew() && SameFiles(old(disk), disk) && disk.record == Some(r)
      ensures settlement.Ok? ==>
                if Restoring(r) then Confirmed(disk, r.participants[i], settlement.value)
                else settlement.value.Disabled?
      ensures !faulty ==>
                (settlement.Ok? <==> DirectoriesValid(old(disk), r.participants[i]) && Settleable(old(disk), r, i))
      ensures Still() ==> UserTurn(old(disk), disk, r.participants[i], Restoring(r))
    {
      if Restoring(r) {
        var recovery := RecoverPending(r, i);
        if recovery.Err? {
          return Err(recovery.error);
        }
        match recovery.value {
          case Absent =>
          case StopAndRetry =>
            var o := Stop(r, i);
            if o.Fail? {
              return Err(o.error);
            }
          case Ready(found) =>
            var o := ConfirmRestored(r, i, found);
            return if o.Fail? then Err(o.error) else Ok(found);
        }
      }
      settlement := CleanupAndRestore(r, i);
    }

    /** Settles a participant whose runtime directory is recorded, then records the settlement. */
    method SettleKnown(r: Record, i: nat) returns (o: Outcome<PackageError>, later: Record)
      requires Valid() && exclusiveController && i < |r.participants| && disk.record == Some(r)
      requires r.participants[i].settlement.Pending? && r.phase.Settling? && !r.kind.Purge?
      modifies this
      ensures Valid() && Grew() && SameFiles(old(disk), disk)
      ensures disk.record == Some(r) || (disk.record == Some(later) && IsSettled(r, i, later))
      ensures o.Pass? ==> disk.record == Some(later) && IsSettled(r, i, later)
      ensures !faulty ==>
                (o.Pass? <==> DirectoriesValid(old(disk), r.participants[i]) && Settleable(old(disk), r, i))
      ensures Still() ==> UserTurn(old(disk), disk, r.participants[i], Restoring(r))
    {
      later := r;
      var settlement := SettleUser(r, i);
      if settlement.Err? {
        return Fail(settlement.error), later;
      }
      Drift();
      later := WithSettlement(r, i, settlement.value);
      o := Commit(ParticipantSettled(i, settlement.value), disk.(record := Some(later)));
    }

    /** One turn of the settling loop: settles participant `i` and records it. */
    method SettleParticipant(r: Record, i: nat) returns (o: Outcome<PackageError>, later: Record)
      requires Valid() && exclusiveController && i < |r.participants| && disk.record == Some(r)
      requires r.participants[i].settlement.Pending? && r.phase.Settling? && !r.kind.Purge?
      modifies this
      ensures Valid() && Grew() && SameFiles(old(disk), disk) && disk.record.Some?
      ensures OnlyTurned(r, i, disk.record.value)
      ensures o.Pass? ==> disk.record == Some(later) && !later.participants[i].settlement.Pending?
      ensures o.Pass? && !Restoring(r) ==> later.participants[i].settlement.Disabled?
      ensures Still() && o.Pass? ==>
                later == WithSettlement(RuntimeKnown(old(disk), r, i), i, later.participants[i].settlement)
      ensures Still() ==> TurnOutcome(old(disk), r, i, disk.record.value)
      ensures !faulty ==> (o.Pass? <==> Settleable(old(disk), r, i))
      ensures Still() ==> UserTurn(old(disk), disk, r.participants[i], Restoring(r))
    {
      KnownRuntimeIsTrusted(disk, r, i);
      o, later := RecordRuntime(r, i);
      if o.Pass? {
        var known := later;
        o, later := SettleKnown(known, i);
        RecordedTurn(old(disk), r, i, known, disk.record.value);
      }
    }

    /** The settling loop's turn for participant `i`, who may be settled already. */
    method SettleNext(r: Record, i: nat) returns (o: Outcome<PackageError>, later: Record)
      requires Valid() && exclusiveController && i < |r.participants| && disk.record == Some(r)
      requires r.phase.Settling? && !r.kind.Purge?
      modifies this
      ensures Valid() && Grew() && SameFiles(old(disk), disk) && disk.record.Some?
      ensures o.Pass? ==> disk.record == Some(later) && SettledNext(r, i, later)
      ensures SameSettling(r, disk.record.value)
      ensures Still() && SettlingFinishable(old(disk), r) ==> SettlingFinishable(disk, disk.record.value)
      ensures !faulty ==> (o.Pass? && AllSettleable(disk, later, i + 1) <==> AllSettleable(old(disk), r, i))
      ensures Still() ==> SameSessions(old(disk), disk)
      ensures o.Pass? && !faulty && !Restoring(r) ==> later.participants[i] == Removed(old(disk), r.participants[i])
    {
      later := r;
      o := Pass;
      if r.participants[i].settlement.Pending? {
        o, later := SettleParticipant(r, i);
        if Still() {
          TurnKeepsFinishable(old(disk), disk, r, disk.record.value, i);
        }
        if o.Pass? {
          assert later.participants == r.participants[i := later.participants[i]];
          if !faulty {
            LaterParticipantsUnaffected(old(disk), disk, r, later, i);
          }
        }
      }
    }

    /** Settles every participant still pending, one at a time, each durably before the next. */
    method SettleAll(r: Record) returns (o: Outcome<PackageError>, later: Record)
      requires Valid() && exclusiveController && disk.record == Some(r) && r.phase.Settling? && !r.kind.Purge?
      modifies this
      ensures Valid() && Grew() && SameFiles(old(disk), disk) && disk.record.Some?
      ensures o.Pass? ==>
                && disk.record == Some(later) && NonePending(later.participants)
                && later == r.(participants := later.participants) && SameChoices(r.participants, later.participants)
      ensures SameSettling(r, disk.record.value)
      ensures Still() && SettlingFinishable(old(disk), r) ==> SettlingFinishable(disk, disk.record.value)
      ensures Still() ==> SameSessions(old(disk), disk)
      ensures !faulty ==> (o.Pass? <==> AllSettleable(old(disk), r, 0))
      ensures !faulty && o.Pass? && !Restoring(r) ==> AllRemoved(old(disk), r.participants, later.participants)
    {
      later := r;
      o := Pass;
      var i := 0;
      while i < |later.participants|
        invariant 0 <= i <= |later.participants| && o.Pass?
        invariant Valid() && Grew() && SameFiles(old(disk), disk) && disk.record == Some(later)
        invariant SettledUpTo(r, later, i)
        invariant Still() ==> SameSessions(old(disk), disk)
        invariant Still() && SettlingFinishable(old(disk), r) ==> SettlingFinishable(disk, later)
        invariant !faulty ==> (AllSettleable(disk, later, i) <==> AllSettleable(old(disk), r, 0))
        invariant !faulty && !Restoring(r) ==> RemovedUpTo(old(disk), r, later, i)
      {
        ghost var before, was := disk, later;
        o, later := SettleNext(later, i);
        if o.Fail? {
          return;
        }
        SettledOneMore(old(disk), before, r, was, later, i);
        i := i + 1;
      }
      assert AllSettleable(disk, later, i);
    }

    // ---- finishing ----

    method WriteRemovalReceipt(r: Record) returns (o: Outcome<PackageError>)
      requires Valid() && exclusiveController && disk.record == Some(r) && NonePending(r.participants)
      requires r.kind.Remove? && r.disposition.Forward? && r.phase.Settling?
      modifies this
      ensures Valid() && Grew() && disk.record == Some(r)
      ensures disk == old(disk) || (old(disk).removal.None? && disk == WithRemoval(old(disk), r))
      ensures o.Pass? ==> disk.removal == Some(ExactRemoval(r))
      ensures o.Pass? ==> disk.removal == Some(RemovalReceipt(r.generation, r.targetVersion, r.participants))
      ensures !faulty ==> (o.Pass? <==> (old(disk).removal.None? || old(disk).removal == Some(ExactRemoval(r))))
    {
      if disk.removal.Some? {
        return if disk.removal == Some(ExactRemoval(r)) then Pass else Fail(Conflict);
      }
      o := Commit(RemovalWritten, WithRemoval(disk, r));
    }

    method WriteInstallReceipt(r: Record) returns (o: Outcome<PackageError>)
      requires Valid() && exclusiveController && disk.record == Some(r) && NonePending(r.participants)
      requires r.kind.Reinstall? && r.phase.Settling?
      modifies this
      ensures Valid() && Grew() && disk.record == Some(r) && r.predecessor.Some?
      ensures disk == old(disk) || disk == old(disk).(install := Some(ExactInstall(r)))
      ensures o.Pass? ==> disk.install == Some(ExactInstall(r))
      ensures !faulty ==> (o.Pass? <==> InstallAccepted(old(disk).install, r))
      ensures o.Pass? ==>
                disk.install == Some(InstallReceipt(r.generation, r.predecessor.value, r.targetVersion, r.participants))
      ensures !faulty && old(disk).install.Some? && old(disk).install.value.installGeneration != r.generation ==>
                (o.Pass? <==> old(disk).install.value.installedVersion == r.sourceVersion)
      ensures !faulty && old(disk).install.None? ==> o.Pass?
    {
      if disk.install.Some? {
        if disk.install.value.installGeneration == r.generation {
          return if disk.install == Some(ExactInstall(r)) then Pass else Fail(Conflict);
        }
        if disk.install.value.installedVersion != r.sourceVersion {
          return Fail(Conflict);
        }
      }
      o := Commit(InstallWritten, disk.(install := Some(ExactInstall(r))));
    }

    method RetireController(r: Record) returns (o: Outcome<PackageError>)
      requires Valid() && exclusiveController && disk.record == Some(r) && r.phase.Finalizing? && Restoring(r)
      modifies this
      ensures Valid() && Grew()
      ensures disk == old(disk) || disk == ControllerGone(old(disk), r)
      ensures o.Pass? ==> disk == ControllerGone(old(disk), r)
      ensures !faulty ==> o.Pass?
    {
      if r.generation !in disk.controllers {
        return Pass;
      }
      o := Commit(ControllerRetired, ControllerGone(disk, r));
    }

    method ConsumeRemovalReceipt(r: Record) returns (o: Outcome<PackageError>)
      requires Valid() && exclusiveController && disk.record == Some(r) && r.phase.Finalizing? && r.kind.Reinstall?
      modifies this
      ensures Valid() && Grew()
      ensures disk == old(disk) || disk == old(disk).(removal := None)
      ensures o.Pass? ==> disk == old(disk).(removal := None)
      ensures !faulty ==> o.Pass?
    {
      if disk.removal.None? {
        assert disk.install == Some(ExactInstall(r));
        return Pass;
      }
      assert r.predecessor == Some(disk.removal.value.producer);
      o := Commit(RemovalConsumed, disk.(removal := None));
    }

    /** Retires the controller of a restored operation, consumes the receipt a reinstall followed, clears the record. */
    method ClearOperation(r: Record) returns (o: Outcome<PackageError>)
      requires Valid() && exclusiveController && disk.record == Some(r) && r.phase.Finalizing? && !r.kind.Purge?
      requires r.disposition.Rollback? ==> disk.intent.None?
      modifies this
      ensures Valid() && Grew()
      ensures o.Pass? ==> disk == Cleared(old(disk), r)
      ensures (disk.record == Some(r) && disk.intent == old(disk).intent) || disk == Cleared(old(disk), r)
      ensures SameSessions(old(disk), disk)
      ensures !faulty ==> o.Pass?
    {
      if Restoring(r) {
        :- RetireController(r);
      }
      if r.kind.Reinstall? {
        :- ConsumeRemovalReceipt(r);
      }
      :- Commit(RecordCleared, disk.(record := None));
      o := Pass;
    }

    /** Settles everybody and writes the receipt the operation owes. */
    method SettleAndReceipt(r: Record) returns (o: Outcome<PackageError>, later: Record)
      requires Valid() && exclusiveController && disk.record == Some(r) && r.phase.Settling? && !r.kind.Purge?
      modifies this
      ensures Valid() && Grew()
      ensures o.Pass? ==>
                && disk.record == Some(later) && NonePending(later.participants) && ReceiptOwed(disk, later)
                && later == r.(participants := later.participants) && SameChoices(r.participants, later.participants)
      ensures o.Pass? ==> FinishFrame(old(disk), disk, r)
      ensures disk.intent == old(disk).intent
      ensures disk.record.Some? && SameSettling(r, disk.record.value)
      ensures Still() && SettlingFinishable(old(disk), r) ==> SettlingFinishable(disk, disk.record.value)
      ensures Still() ==> SameSessions(old(disk), disk)
      ensures !faulty ==> (o.Pass? <==> SettlingFinishable(old(disk), r))
    {
      o, later := SettleAll(r);
      if o.Fail? {
        return;
      }
      ReceiptKeepsFinishable(disk, later);
      if later.kind.Remove? && !Restoring(later) {
        if !faulty {
          ExactRemovalFits(old(disk), disk, r, later);
        }
        o := WriteRemovalReceipt(later);
      } else if later.kind.Reinstall? {
        o := WriteInstallReceipt(later);
      }
    }

    method BeginSettling(r: Record) returns (o: Outcome<PackageError>, later: Record)
      requires Valid() && exclusiveController && disk.record == Some(r) && !r.kind.Purge?
      requires r.phase.PublishersStopped? || r.phase.Settling?
      modifies this
      ensures Valid() && Grew() && later == r.(phase := Settling)
      ensures disk == old(disk) || disk == old(disk).(record := Some(later))
      ensures o.Pass? ==> disk == old(disk).(record := Some(later))
      ensures SettlingFinishable(disk, disk.record.value) <==> SettlingFinishable(old(disk), r)
      ensures o.Pass? ==> forall w :: FinishFrame(disk, w, later) ==> FinishFrame(old(disk), w, r)
      ensures !faulty ==> o.Pass?
    {
      later := r.(phase := Settling);
      o := Pass;
      PhaseDoesNotMatter(disk, disk.(record := Some(later)), r, later);
      if r.phase.PublishersStopped? {
        o := Commit(SettlingBegun, disk.(record := Some(later)));
      }
    }

    /** Settles everybody, writes the receipt, then records that nothing is left to settle. */
    method SettleToFinal(r: Record) returns (o: Outcome<PackageError>, later: Record)
      requires Valid() && exclusiveController && disk.record == Some(r) && r.phase.Settling? && !r.kind.Purge?
      modifies this
      ensures Valid() && Grew()
      ensures o.Pass? ==>
                disk.record == Some(later) && later == r.(phase := Finalizing, participants := later.participants)
      ensures o.Pass? ==> SameChoices(r.participants, later.participants) && FinishFrame(old(disk), disk, r)
      ensures disk.intent == old(disk).intent
      ensures disk.record.Some? && SameFinishing(r, disk.record.value)
      ensures Still() && SettlingFinishable(old(disk), r) ==>
                disk.record.value.phase.Finalizing? || SettlingFinishable(disk, disk.record.value)
      ensures Still() ==> SameSessions(old(disk), disk)
      ensures !faulty ==> (o.Pass? <==> SettlingFinishable(old(disk), r))
    {
      o, later := SettleAndReceipt(r);
      if o.Pass? {
        Drift();
        later := later.(phase := Finalizing);
        o := Commit(FinalizingReached, disk.(record := Some(later)));
      }
    }

    /** Takes an operation whose users are stopped to its final phase. */
    method ReachFinalizing(r: Record) returns (o: Outcome<PackageError>, later: Record)
      requires Valid() && exclusiveController && disk.record == Some(r) && !r.kind.Purge?
      requires r.phase.PublishersStopped? || r.phase.Settling?
      modifies this
      ensures Valid() && Grew()
      ensures o.Pass? ==>
                disk.record == Some(later) && later == r.(phase := Finalizing, participants := later.participants)
      ensures o.Pass? ==> SameChoices(r.participants, later.participants) && FinishFrame(old(disk), disk, r)
      ensures disk.intent == old(disk).intent
      ensures disk.record.Some? && SameFinishing(r, disk.record.value)
      ensures Still() && SettlingFinishable(old(disk), r) ==>
                disk.record.value.phase.Finalizing? || SettlingFinishable(disk, disk.record.value)
      ensures Still() ==> SameSessions(old(disk), disk)
      ensures !faulty ==> (o.Pass? <==> SettlingFinishable(old(disk), r))
    {
      o, later := BeginSettling(r);
      if o.Pass? {
        o, later := SettleToFinal(later);
      }
    }

    /**
     * Finishes the operation on record: settles every user, writes the receipt, clears the record. It succeeds without
     * faults exactly on the states `Finishable` describes, and refuses any other operation without touching anything.
     * Cut short anywhere, it leaves an operation that can still be finished, or that is complete.
     */
    method Finish(kind: Kind, target: Version) returns (o: Outcome<PackageError>)
      requires Valid() && exclusiveController && !kind.Purge?
      requires disk.record.Some? && disk.record.value.disposition.Rollback? && kind.Remove? ==> disk.intent.None?
      modifies this
      ensures Valid() && Grew()
      ensures o.Pass? ==> old(disk).record.Some? && Validate(old(disk).record.value, kind, target)
      ensures o.Pass? ==> Completed(old(disk), disk, old(disk).record.value)
      ensures !(old(disk).record.Some? && Validate(old(disk).record.value, kind, target)) ==> disk == old(disk)
      ensures o.Pass? ==>
                && old(disk).record.Some?
                && old(disk).record.value.kind == kind && old(disk).record.value.targetVersion == target
      ensures old(disk).record.None? || old(disk).record.value.kind != kind
              || old(disk).record.value.targetVersion != target ==>
                o.Fail? && disk == old(disk)
      ensures o.Pass? ==> disk.record == None && disk.intent == old(disk).intent
      ensures o.Pass? && (kind != Remove || old(disk).record.value.disposition == Rollback) ==>
                && disk.controllers == old(disk).controllers - {old(disk).record.value.generation}
                && forall i :: 0 <= i < |old(disk).record.value.participants| ==>
                     var p := old(disk).record.value.participants[i];
                     p.uid in disk.enabled <==> p.enabled
      ensures o.Pass? && kind == Remove && old(disk).record.value.disposition == Forward ==>
                && disk.removal != None && disk.removal.value.producer == old(disk).record.value.generation
                && disk.removal.value.removedVersion == target && disk.controllers == old(disk).controllers
                && forall i :: 0 <= i < |old(disk).record.value.participants| ==>
                     var p := old(disk).record.value.participants[i];
                     p.uid !in disk.enabled && p.uid !in disk.registered
      ensures o.Pass? && kind == Reinstall ==>
                && disk.removal == None && disk.install != None
                && disk.install.value.installGeneration == old(disk).record.value.generation
                && disk.install.value.installedVersion == target
      ensures Still() ==> SameSessions(old(disk), disk)
      ensures !faulty ==> (o.Pass? <==> Finishable(old(disk), kind, target))
      ensures disk.intent == old(disk).intent
      ensures old(disk).record.Some? && disk.record.Some? && disk != old(disk) ==>
                SameFinishing(old(disk).record.value, disk.record.value)
      ensures Still() && o.Fail? && Finishable(old(disk), kind, target) ==>
                Finishable(disk, kind, target) || Completed(old(disk), disk, old(disk).record.value)
    {
      if disk.record.None? {
        return Fail(Conflict);
      }
      var r := disk.record.value;
      if !Validate(r, kind, target) {
        return Fail(Conflict);
      }
      :- LockParticipants(r);
      if r.phase.IntentRecorded? {
        return Fail(Conflict);
      }
      o := Complete(r);
    }

    /** Takes an operation whose users are stopped through to the end. */
    method Complete(r: Record) returns (o: Outcome<PackageError>)
      requires Valid() && exclusiveController && disk.record == Some(r) && !r.kind.Purge? && !r.phase.IntentRecorded?
      requires r.disposition.Rollback? ==> disk.intent.None?
      modifies this
      ensures Valid() && Grew()
      ensures o.Pass? ==> Completed(old(disk), disk, r)
      ensures disk.intent == old(disk).intent && (disk.record.Some? ==> SameFinishing(r, disk.record.value))
      ensures disk.record.None? ==> Completed(old(disk), disk, r)
      ensures Still() && disk.record.Some? && (r.phase.Finalizing? || SettlingFinishable(old(disk), r)) ==>
                disk.record.value.phase.Finalizing? || SettlingFinishable(disk, disk.record.value)
      ensures Still() ==> SameSessions(old(disk), disk)
      ensures !faulty ==> (o.Pass? <==> r.phase.Finalizing? || SettlingFinishable(old(disk), r))
    {
      var later := r;
      if !r.phase.Finalizing? {
        o, later := ReachFinalizing(r);
        if o.Fail? {
          return;
        }
      }
      FinalizedIsCompleted(old(disk), disk, r, later);
      o := ClearOperation(later);
    }

    // ---- preparing ----

    /** The user with the acknowledged directories and choice, yet to be settled. */
    predicate IsAsAcknowledged(p: Participant)
      requires p.uid in disk.acks
      reads this
    {
      && p.profile == disk.acks[p.uid].profile && p.enabled == disk.acks[p.uid].enabled && p.settlement == Pending
      && p.runtimeDevice == (if p.uid in disk.runtime then Some(disk.acks[p.uid].identity.device) else None)
      && p.runtimeInode == (if p.uid in disk.runtime then Some(disk.acks[p.uid].identity.inode) else None)
    }

    /** Lists the acknowledged users in uid order. */
    method Discover() returns (found: Result<seq<Participant>, PackageError>)
      ensures found.Ok? ==> IsDiscovery(disk, found.value)
      ensures found.Ok? ==> Discoverable(disk)
      ensures found.Ok? ==>
                && (forall i, j :: 0 <= i < j < |found.value| ==> found.value[i].uid < found.value[j].uid)
                && (forall p :: p in found.value ==> p.uid in disk.acks && IsAsAcknowledged(p))
                && (forall uid :: uid in disk.acks ==> exists p :: p in found.value && p.uid == uid)
      ensures !faulty ==>
                (found.Ok? <==>
                 forall uid :: uid in disk.acks ==>
                   && uid !in disk.misplaced && uid !in disk.switching
                   && (uid in disk.runtime ==> disk.runtime[uid] == disk.acks[uid].identity))
      ensures !faulty ==> (found.Ok? <==> Discoverable(disk))
    {
      var fault := Fault(faulty);
      if fault || !Discoverable(disk) {
        return Err(Conflict);
      }
      var ps: seq<Participant> := [];
      var rest := disk.acks.Keys;
      while rest != {}
        invariant rest <= disk.acks.Keys
        invariant Ascending(ps)
        invariant forall p :: p in ps ==> p.uid in disk.acks && p.uid !in rest && p == Joined(disk, p.uid)
        invariant forall uid :: uid in disk.acks && uid !in rest ==> Joined(disk, uid) in ps
        decreases rest
      {
        var uid :| uid in rest;
        ps := InsertByUid(ps, Joined(disk, uid));
        rest := rest - {uid};
      }
      assert forall uid :: uid in disk.acks ==> Joined(disk, uid) in ps && Joined(disk, uid).uid == uid;
      found := Ok(ps);
    }

    /** Stops one user's provider, disables it, and checks that nothing stayed registered. */
    method StopParticipant(r: Record, i: nat) returns (o: Outcome<PackageError>)
      requires Valid() && exclusiveController && i < |r.participants| && disk.record == Some(r)
      requires r.participants[i].settlement.Pending? && r.phase.IntentRecorded?
      modifies this
      ensures Valid() && Grew() && Calmed(old(disk), disk) && disk.record == Some(r)
      ensures o.Pass? ==> r.participants[i].uid !in disk.enabled && r.participants[i].uid !in disk.registered
      ensures o.Pass? ==> DirectoriesValid(disk, r.participants[i])
      ensures Still() ==> OnlyStopped(old(disk), disk)
      ensures !faulty && DirectoriesValid(old(disk), r.participants[i]) ==> o.Pass?
    {
      o := Stop(r, i);
      if o.Pass? {
        :- Suppress(r, i);
        o := Cleanup(r, i);
      }
    }

    /** The preparing loop's turn for participant `i`. */
    method StopNext(r: Record, i: nat, recordRuntimes: bool) returns (o: Outcome<PackageError>, later: Record)
      requires Valid() && exclusiveController && i < |r.participants| && disk.record == Some(r)
      requires r.phase.IntentRecorded?
      modifies this
      ensures Valid() && Grew() && Calmed(old(disk), disk) && disk.record.Some?
      ensures OnlyNoted(r, i, disk.record.value) && (o.Pass? ==> disk.record == Some(later))
      ensures o.Pass? ==> later.participants[i].uid !in disk.enabled && later.participants[i].uid !in disk.registered
      ensures Still() ==> OnlyStopped(old(disk), disk)
      ensures Still() ==> disk.record.value == r || disk.record.value == RuntimeKnown(old(disk), r, i)
      ensures Still() && o.Pass? ==> Halted(old(disk), disk, r.participants[i], later.participants[i], recordRuntimes)
      ensures !faulty && Stoppable(old(disk), r.participants[i], recordRuntimes) ==> o.Pass?
    {
      later := r;
      KnownRuntimeIsTrusted(disk, r, i);
      if recordRuntimes {
        o, later := RecordRuntime(r, i);
        if o.Fail? {
          return;
        }
      }
      o := StopParticipant(later, i);
    }

    /** Stops the participants one after the other. */
    method StopEach(r: Record, recordRuntimes: bool) returns (o: Outcome<PackageError>, later: Record)
      requires Valid() && exclusiveController && disk.record == Some(r) && r.phase.IntentRecorded?
      modifies this
      ensures Valid() && Grew() && Calmed(old(disk), disk) && disk.record.Some?
      ensures Advanced(r, disk.record.value) && disk.record.value.phase.IntentRecorded?
      ensures o.Pass? ==> disk.record == Some(later) && QuietUsers(disk, later.participants)
      ensures Still() ==> OnlyStopped(old(disk), disk) && Advancing(old(disk), r, disk.record.value)
      ensures Still() && o.Pass? ==> AllStoppable(disk, later, false) && AllStoppable(old(disk), r, recordRuntimes)
      ensures !faulty && AllStoppable(old(disk), r, recordRuntimes) ==> o.Pass?
    {
      later := r;
      o := Pass;
      var i := 0;
      while i < |later.participants|
        invariant 0 <= i <= |later.participants| && o.Pass?
        invariant Valid() && Grew() && disk.record == Some(later)
        invariant QuietUpTo(old(disk), disk, r, later, i)
        invariant Still() ==> StoppedUpTo(old(disk), disk, r, later, i, recordRuntimes)
      {
        ghost var before, was := disk, later;
        o, later := StopNext(later, i, recordRuntimes);
        QuietNext(old(disk), before, disk, r, was, disk.record.value, i);
        if Still() {
          StoppedNext(old(disk), before, disk, r, was, disk.record.value, i, recordRuntimes);
        }
        if o.Fail? {
          return;
        }
        i := i + 1;
      }
    }

    /** Stops every participant and then records that all of them are stopped. */
    method StopEverybody(r: Record, recordRuntimes: bool) returns (o: Outcome<PackageError>)
      requires Valid() && exclusiveController && disk.record == Some(r) && r.phase.IntentRecorded?
      requires r.generation in disk.controllers
      modifies this
      ensures Valid() && Grew() && Calmed(old(disk), disk) && disk.record.Some?
      ensures Advanced(r, disk.record.value) && (o.Pass? ==> disk.record.value.phase.PublishersStopped?)
      ensures Still() ==> OnlyStopped(old(disk), disk) && Advancing(old(disk), r, disk.record.value)
      ensures Still() ==> StopsVerified(disk, r, disk.record.value)
      ensures !faulty ==> (o.Pass? <==> AllStoppable(old(disk), r, recordRuntimes))
    {
      var later: Record;
      o, later := StopEach(r, recordRuntimes);
      if o.Pass? {
        Drift();
        o := Commit(StopsRecorded, disk.(record := Some(later.(phase := PublishersStopped))));
      }
    }

    method PrepareController(r: Record) returns (o: Outcome<PackageError>)
      requires Valid() && exclusiveController && disk.record == Some(r) && !r.kind.Reinstall?
      modifies this
      ensures Valid() && Grew()
      ensures disk == old(disk) || disk == WithController(old(disk), r.generation)
      ensures o.Pass? ==> disk == WithController(old(disk), r.generation)
      ensures !faulty ==> o.Pass?
    {
      if r.generation in disk.controllers {
        assert disk == WithController(disk, r.generation);
        return Pass;
      }
      o := Commit(ControllerPrepared(r.generation), WithController(disk, r.generation));
    }

    /** Makes sure the record and a controller to go on with it are on disk. */
    method KeepOperation(r: Record, isNew: bool) returns (o: Outcome<PackageError>)
      requires Valid() && exclusiveController && !r.kind.Reinstall?
      requires if isNew then RecordCreatedStep(disk, r, Created(disk, r)) else disk.record == Some(r)
      modifies this
      ensures Valid() && Grew()
      ensures
        || (isNew && disk == old(disk))
        || disk == Kept(old(disk), r, isNew) || disk == WithController(Kept(old(disk), r, isNew), r.generation)
      ensures o.Pass? ==> disk == WithController(Kept(old(disk), r, isNew), r.generation)
      ensures !faulty ==> o.Pass?
    {
      o := LockParticipants(r);
      if o.Pass? {
        if isNew {
          :- Commit(RecordCreated(r), Created(disk, r));
        }
        o := PrepareController(r);
      }
    }

    /** Writes a new record before anything is done to anybody, keeps a controller, and stops everybody once. */
    method PrepareRecord(r: Record, isNew: bool, recordRuntimes: bool) returns (o: Outcome<PackageError>)
      requires Valid() && exclusiveController && !r.kind.Reinstall?
      requires if isNew then RecordCreatedStep(disk, r, Created(disk, r)) else disk.record == Some(r)
      modifies this
      ensures Valid() && Grew()
      ensures PrepareFrame(old(disk), disk, r.generation)
      ensures disk.record.Some? ==> Advanced(r, disk.record.value)
      ensures Still() ==> SameSessions(old(disk), disk)
      ensures Still() && disk.record.Some? ==>
                Advancing(old(disk), r, disk.record.value) && StopsVerified(disk, r, disk.record.value)
      ensures o.Pass? ==> disk.record.Some? && Prepared(r, disk.record.value) && r.generation in disk.controllers
      ensures disk.past == old(disk).past || (isNew && disk.past == Created(old(disk), r).past)
      ensures !isNew ==> disk.record.Some?
      ensures !faulty ==> (o.Pass? <==> r.phase.IntentRecorded? ==> AllStoppable(old(disk), r, recordRuntimes))
    {
      o := KeepOperation(r, isNew);
      if o.Pass? && r.phase.IntentRecorded? {
        o := StopEverybody(r, recordRuntimes);
      }
    }

    /** The record on disk, if it is the announced operation, or a new one over the users found. */
    method RecordOf(intent: QuiesceIntent) returns (found: Result<Record, PackageError>)
      ensures found.Ok? ==>
                if disk.record.Some? then found.value == disk.record.value && Carries(found.value, intent)
                else
                  && Discoverable(disk) && IsDiscovery(disk, found.value.participants)
                  && found.value == Record(Forward, intent.generation, intent.kind, IntentRecorded,
                                           intent.sourceVersion, intent.targetVersion, None,
                                           found.value.participants)
      ensures !faulty ==>
                (found.Ok? <==>
                 if disk.record.Some? then Carries(disk.record.value, intent) else Discoverable(disk))
      ensures disk.record.Some? && !Carries(disk.record.value, intent) ==> found.Err?
    {
      if disk.record.Some? {
        return if Carries(disk.record.value, intent) then Ok(disk.record.value) else Err(Conflict);
      }
      var users := Discover();
      if users.Err? {
        return Err(users.error);
      }
      found := Ok(Record(Forward, intent.generation, intent.kind, IntentRecorded, intent.sourceVersion,
                         intent.targetVersion, None, users.value));
    }

    /** Prepares what the intent announces, its record found or new. */
    method PrepareFound(intent: QuiesceIntent, r: Record) returns (o: Outcome<PackageError>)
      requires Valid() && exclusiveController && Carries(r, intent)
      requires disk.intent == Some(intent)
               || (intent.kind.Purge? && disk.record.Some? && disk.record.value.kind.Purge?)
      requires if disk.record.Some? then disk.record == Some(r)
               else Discoverable(disk) && IsDiscovery(disk, r.participants) && r.phase.IntentRecorded?
      modifies this
      ensures Valid() && Grew()
      ensures PrepareFrame(old(disk), disk, intent.generation) && disk.past == old(disk).past
      ensures disk.record.Some? ==> Advanced(r, disk.record.value)
      ensures o.Pass? ==> disk.record.Some? && Prepared(r, disk.record.value) && r.generation in disk.controllers
      ensures old(disk).record.Some? ==> disk.record.Some?
      ensures Still() ==> SameSessions(old(disk), disk)
      ensures Still() && disk.record.Some? ==>
                Advancing(old(disk), r, disk.record.value) && StopsVerified(disk, r, disk.record.value)
      ensures !faulty ==> (o.Pass? <==> Preparable(old(disk), intent))
      ensures Still() && Preparable(old(disk), intent) ==> Preparable(disk, intent)
      ensures old(disk).record.None? && disk.record.Some? ==>
                Begun(old(disk), intent, disk.record.value) && ListsAll(old(disk), disk.record.value)
    {
      var isNew := disk.record.None?;
      if isNew {
        DiscoveredStoppable(disk, r);
      }
      o := PrepareRecord(r, isNew, true);
      if disk.record.Some? {
        PreparedFromIntent(old(disk), disk, r, intent, isNew);
      }
    }

    /** Prepares the operation an intent announces, or resumes preparing it. */
    method PrepareFromIntent(intent: QuiesceIntent) returns (o: Outcome<PackageError>)
      requires Valid() && exclusiveController
      requires disk.intent == Some(intent)
               || (intent.kind.Purge? && disk.record.Some? && disk.record.value.kind.Purge?)
      modifies this
      ensures Valid() && Grew()
      ensures PrepareFrame(old(disk), disk, intent.generation) && disk.past == old(disk).past
      ensures o.Pass? ==>
                && disk.record.Some? && Carries(disk.record.value, intent)
                && !disk.record.value.phase.IntentRecorded? && intent.generation in disk.controllers
      ensures old(disk).record.Some? && !Carries(old(disk).record.value, intent) ==> o.Fail? && disk == old(disk)
      ensures o.Pass? ==>
                && disk.record.value.generation == intent.generation && disk.record.value.kind == intent.kind
                && disk.record.value.sourceVersion == intent.sourceVersion
                && disk.record.value.targetVersion == intent.targetVersion
                && disk.record.value.disposition == Forward
      ensures old(disk).record.Some?
              && (|| old(disk).record.value.generation != intent.generation
                  || old(disk).record.value.kind != intent.kind
                  || old(disk).record.value.sourceVersion != intent.sourceVersion
                  || old(disk).record.value.targetVersion != intent.targetVersion
                  || old(disk).record.value.disposition != Forward) ==>
                o.Fail? && disk == old(disk)
      ensures o.Pass? && old(disk).record.Some? ==> Prepared(old(disk).record.value, disk.record.value)
      ensures old(disk).record.Some? ==> disk.record.Some? && Advanced(old(disk).record.value, disk.record.value)
      ensures Still() ==> SameSessions(old(disk), disk)
      ensures Still() && old(disk).record.Some? ==>
                && Advancing(old(disk), old(disk).record.value, disk.record.value)
                && StopsVerified(disk, old(disk).record.value, disk.record.value)
      ensures !faulty ==> (o.Pass? <==> Preparable(old(disk), intent))
      ensures Still() && Preparable(old(disk), intent) ==> Preparable(disk, intent)
      ensures old(disk).record.None? && disk.record.Some? ==>
                Begun(old(disk), intent, disk.record.value) && ListsAll(old(disk), disk.record.value)
    {
      var found := RecordOf(intent);
      if found.Err? {
        return Fail(found.error);
      }
      o := PrepareFound(intent, found.value);
    }

    /** The earlier form of preparing, which invents its own generation; only an interrupted removal still uses it. */
    method Prepare(kind: Kind, source: Version, target: Version, uuid: Generation) returns (o: Outcome<PackageError>)
      requires Valid() && exclusiveController && (kind.Upgrade? || kind.Remove?)
      requires IsUuid(uuid) && uuid !in disk.past.issued
      modifies this
      ensures Valid() && Grew()
      ensures PrepareFrame(old(disk), disk, if old(disk).record.Some? then old(disk).record.value.generation else uuid)
      ensures o.Pass? ==>
                && disk.record.Some? && Validate(disk.record.value, kind, target)
                && disk.record.value.disposition.Forward? && !disk.record.value.phase.IntentRecorded?
      ensures o.Pass? ==> disk.record.value.kind == kind && disk.record.value.targetVersion == target
      ensures old(disk).record.Some?
              && (old(disk).record.value.kind != kind || old(disk).record.value.targetVersion != target) ==>
                o.Fail? && disk == old(disk)
      ensures o.Pass? && old(disk).record.Some? ==> Prepared(old(disk).record.value, disk.record.value)
      ensures o.Pass? && old(disk).record.None? ==>
                && disk.record.value.generation == uuid
                && disk.record.value.sourceVersion == source && disk.record.value.phase.PublishersStopped?
      ensures old(disk).record.Some? ==> disk.record.Some? && disk.past == old(disk).past
      ensures old(disk).record.Some? && old(disk).record.value.disposition.Rollback? ==> o.Fail? && disk == old(disk)
      ensures old(disk).record.Some? ==> Advanced(old(disk).record.value, disk.record.value)
      ensures Still() ==> SameSessions(old(disk), disk)
      ensures Still() && old(disk).record.Some? ==>
                && Advancing(old(disk), old(disk).record.value, disk.record.value)
                && StopsVerified(disk, old(disk).record.value, disk.record.value)
      ensures !faulty ==> (o.Pass? <==> Resumable(old(disk), kind, target))
    {
      var isNew := disk.record.None?;
      var r: Record;
      if disk.record.Some? {
        r := disk.record.value;
        if !Validate(r, kind, target) || !r.disposition.Forward? {
          return Fail(Conflict);
        }
      } else {
        var found := Discover();
        if found.Err? {
          return Fail(found.error);
        }
        r := Record(Forward, uuid, kind, IntentRecorded, source, target, None, found.value);
        assert disk.intent.Some? ==> disk.intent.value.generation != uuid;
      }
      if isNew {
        DiscoveredStoppable(disk, r);
      }
      o := PrepareRecord(r, isNew, false);
    }

    /** Finds the pending intent for this operation or durably announces it. */
    method EnsureQuiesceIntent(kind: Kind, source: Version, target: Version, uuid: Generation)
      returns (found: Result<QuiesceIntent, PackageError>)
      requires Valid() && exclusiveController && (kind.Upgrade? || kind.Remove?)
      requires IsUuid(uuid) && uuid !in disk.past.issued
      modifies this
      ensures Valid() && Grew()
      ensures disk == old(disk) || disk == Ensured(old(disk), kind, source, target, uuid)
      ensures found.Ok? ==>
                && ValidVersion(source) && ValidVersion(target)
                && disk == Ensured(old(disk), kind, source, target, uuid)
                && disk.intent == Some(found.value) && Announces(found.value, kind, source, target)
                && found.value.kind == kind && found.value.sourceVersion == source
                && found.value.targetVersion == target
                && (old(disk).intent.None? ==> found.value.generation == uuid && found.value.bootstrap == None)
                && (old(disk).intent.Some? ==> disk == old(disk))
      ensures !(ValidVersion(source) && ValidVersion(target)) ==> disk == old(disk)
      ensures !faulty ==>
                (found.Ok? <==>
                 && ValidVersion(source) && ValidVersion(target)
                 && (old(disk).intent.Some? ==> Announces(old(disk).intent.value, kind, source, target)))
      ensures old(disk).intent.Some?
              && (|| old(disk).intent.value.kind != kind || old(disk).intent.value.sourceVersion != source
                  || old(disk).intent.value.targetVersion != target) ==>
                found.Err? && disk == old(disk)
      ensures !faulty && ValidVersion(source) && ValidVersion(target) && old(disk).intent.Some?
              && old(disk).intent.value.kind == kind && old(disk).intent.value.sourceVersion == source
              && old(disk).intent.value.targetVersion == target ==>
                found == Ok(old(disk).intent.value)
    {
      if !ValidVersion(source) || !ValidVersion(target) {
        return Err(Conflict);
      }
      if disk.intent.Some? {
        var existing := disk.intent.value;
        return if Announces(existing, kind, source, target) then Ok(existing) else Err(Conflict);
      }
      var expected := NewIntent(kind, source, target, uuid);
      var o := Commit(IntentWritten(expected), Announced(disk, expected));
      found := if o.Fail? then Err(o.error) else Ok(expected);
    }

    method ClearQuiesce(generation: Generation) returns (o: Outcome<PackageError>)
      requires Valid() && exclusiveController
      requires disk.intent.Some? && disk.intent.value.generation == generation ==>
                 IntentClearedStep(disk, disk.(intent := None))
      modifies this
      ensures Valid() && Grew()
      ensures disk == old(disk) || disk == old(disk).(intent := None)
      ensures o.Pass? ==> disk == old(disk).(intent := None)
      ensures !faulty ==> (o.Pass? <==> old(disk).intent.Some? && old(disk).intent.value.generation == generation)
    {
      if disk.intent.None? || disk.intent.value.generation != generation {
        return Fail(Conflict);
      }
      o := Commit(IntentCleared, disk.(intent := None));
    }

    /** Prepares what the pending intent announces, then withdraws the intent. */
    method PrepareAndWithdraw(intent: QuiesceIntent) returns (o: Outcome<PackageError>)
      requires Valid() && exclusiveController && disk.intent == Some(intent)
      modifies this
      ensures Valid() && Grew()
      ensures o.Pass? ==>
                && Withdrawn(disk, intent.kind, intent.sourceVersion, intent.targetVersion)
                && disk.record.value.generation == intent.generation
      ensures o.Pass? && old(disk).record.None? ==>
                ListsAll(old(disk), disk.record.value) && disk.record.value.phase.PublishersStopped?
      ensures old(disk).record.Some? && !Carries(old(disk).record.value, intent) ==> o.Fail? && disk == old(disk)
      ensures !faulty ==> (o.Pass? <==> Preparable(old(disk), intent))
      ensures Still() && TurnsBack(old(disk), intent) ==> Abortable(disk, intent.targetVersion)
      ensures Still() && o.Fail? && Preparable(old(disk), intent) ==>
                || (disk.intent == Some(intent) && Preparable(disk, intent))
                || (Withdrawn(disk, intent.kind, intent.sourceVersion, intent.targetVersion))
    {
      o := PrepareFromIntent(intent);
      if o.Pass? {
        o := ClearQuiesce(intent.generation);
      }
      if Still() && TurnsBack(old(disk), intent) {
        BegunRemovalAbortable(old(disk), disk, intent);
      }
    }

    /**
     * Announces the operation unless it is announced, then prepares it and withdraws the announcement. What it comes
     * to is said of the state in which the intent is pending.
     */
    method AnnounceAndPrepare(kind: Kind, source: Version, target: Version, uuid: Generation)
      returns (o: Outcome<PackageError>, ghost announced: World)
      requires Valid() && exclusiveController && (kind.Upgrade? || kind.Remove?)
      requires IsUuid(uuid) && uuid !in disk.past.issued
      modifies this
      ensures Valid() && Grew() && announced == Ensured(old(disk), kind, source, target, uuid)
      ensures o.Pass? ==> Withdrawn(disk, kind, source, target)
      ensures o.Pass? && old(disk).record.None? ==>
                ListsAll(announced, disk.record.value) && disk.record.value.phase.PublishersStopped?
      ensures var intent := announced.intent.value;
              var accepted := ValidVersion(source) && ValidVersion(target) && Announces(intent, kind, source, target);
              && (accepted || (o.Fail? && disk == old(disk)))
              && (old(disk).record.Some? && !Carries(old(disk).record.value, intent) ==>
                    o.Fail? && (disk == old(disk) || disk == announced) && (!faulty && accepted ==> disk == announced))
              && (!faulty ==> (o.Pass? <==> accepted && Preparable(announced, intent)))
              && (Still() && o.Fail? && accepted && Preparable(announced, intent) ==>
                    || disk == old(disk) || (disk.intent == Some(intent) && Preparable(disk, intent))
                    || Withdrawn(disk, kind, source, target))
              && (Still() && TurnsBack(announced, intent) ==>
                    disk == old(disk) || disk == announced || Abortable(disk, intent.targetVersion))
    {
      announced := Ensured(disk, kind, source, target, uuid);
      var found := EnsureQuiesceIntent(kind, source, target, uuid);
      if found.Err? {
        return Fail(found.error), announced;
      }
      o := PrepareAndWithdraw(found.value);
    }

    /** The whole of preparing an upgrade or a removal: announce, stop everybody, withdraw the announcement. */
    method PrepareAnnounced(kind: Kind, source: Version, target: Version, uuid: Generation)
      returns (o: Outcome<PackageError>)
      requires Valid() && exclusiveController && (kind.Upgrade? || kind.Remove?)
      requires IsUuid(uuid) && uuid !in disk.past.issued
      modifies this
      ensures Valid() && Grew()
      ensures o.Pass? ==> Withdrawn(disk, kind, source, target)
      ensures o.Pass? ==>
                && disk.intent.None? && disk.record.Some? && disk.record.value.kind == kind
                && disk.record.value.sourceVersion == source && disk.record.value.targetVersion == target
      ensures o.Pass? && old(disk).record.None? ==>
                forall uid :: uid in old(disk).acks ==> uid !in disk.enabled && uid !in disk.registered
      ensures Still() && o.Fail? && Announceable(old(disk), kind, source, target) ==>
                Announceable(disk, kind, source, target) || Withdrawn(disk, kind, source, target)
      ensures Closed(old(disk)) ==>
                && o.Fail? && disk.record == old(disk).record
                && (old(disk).intent.Some? ==> disk.intent == old(disk).intent)
      ensures !faulty ==> (o.Pass? <==> Announceable(old(disk), kind, source, target))
      ensures !faulty && LeavesIntent(old(disk), source, target) ==>
                disk == Announced(old(disk), NewIntent(kind, source, target, uuid))
      ensures Still() && kind.Remove? && source == target && MayBeTurnedBack(old(disk), target) ==>
                Abortable(disk, target)
    {
      EnsuredPreparable(disk, kind, source, target, uuid);
      EnsuredTurnsBack(disk, target, uuid);
      ghost var announced: World;
      o, announced := AnnounceAndPrepare(kind, source, target, uuid);
      if o.Pass? && old(disk).record.None? {
        ListedAreQuiet(announced, disk);
      }
    }
  }
}
