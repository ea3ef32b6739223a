/** What every reachable state of the package operation controller satisfies, and that every step keeps it. */
module PackageInvariant {
  import opened Wrappers
  import opened Text
  import opened PackageTypes
  import opened PackageWorld

  /** A ready successor is registered, logged in and enabled. */
  ghost predicate UsersInv(w: World) {
    w.ready <= w.registered <= w.runtime.Keys && w.ready <= w.enabled
  }

  /** The record is one that `Validate` accepts, and its generation was issued for its kind. */
  ghost predicate ShapeInv(w: World) {
    && (w.record.Some? ==>
          && Validate(w.record.value, w.record.value.kind, w.record.value.targetVersion)
          && w.record.value.generation in w.past.issued
          && w.past.issued[w.record.value.generation] == BaseKind(w.record.value.kind)
          && (w.record.value.kind.Reinstall? ==> !w.record.value.phase.IntentRecorded?))
    && (w.intent.Some? ==>
          && IsUuid(w.intent.value.generation)
          && w.intent.value.generation in w.past.issued
          && w.past.issued[w.intent.value.generation] == w.intent.value.kind
          && (w.intent.value.kind.Upgrade? || w.intent.value.kind.Remove?)
          && (w.intent.value.bootstrap.Some? ==> w.intent.value.kind.Upgrade?))
    && (w.removal.Some? ==>
          && ValidateRemoval(w.removal.value) && AllDisabled(w.removal.value.participants)
          && w.removal.value.producer in w.past.issued
          && w.past.issued[w.removal.value.producer] == Remove)
    && (w.install.Some? ==> ValidateInstall(w.install.value) && w.install.value.installGeneration in w.past.issued)
  }

  /** Settlements follow the phase; whoever a restoring record has settled holds the recorded choice. */
  ghost predicate SettlementInv(w: World) {
    w.record.Some? ==>
      var r := w.record.value;
      && (r.phase.IntentRecorded? || r.phase.PublishersStopped? ==> AllPending(r.participants))
      && (r.phase.Finalizing? ==> NonePending(r.participants))
      && forall i :: 0 <= i < |r.participants| && !r.participants[i].settlement.Pending? ==>
           if Restoring(r) then
             SettlementFits(r.participants[i], r.participants[i].settlement) && ChoiceHeld(w, r.participants[i])
           else r.participants[i].settlement.Disabled?
  }

  /** Everybody is stopped and suppressed, and nothing in progress may start them again. */
  predicate QuietPhase(r: Record) {
    match r.kind
    case Upgrade => r.phase.PublishersStopped?
    case Remove => r.disposition.Forward? && !r.phase.IntentRecorded?
    case Purge => r.phase.PublishersStopped? || r.phase.Settling?
    case Reinstall => false
  }

  ghost predicate QuietInv(w: World) {
    w.record.Some? && QuietPhase(w.record.value) ==> QuietUsers(w, w.record.value.participants)
  }

  /** A finished phase stands on its exact receipt; a reinstall keeps the choices of the removal it follows. */
  ghost predicate ReceiptInv(w: World) {
    w.record.Some? ==>
      var r := w.record.value;
      && (r.kind.Remove? && r.disposition.Forward? && r.phase.Finalizing? ==> w.removal == Some(ExactRemoval(r)))
      && (r.kind.Reinstall? ==>
            && r.predecessor.Some?
            && r.predecessor.value in w.past.issued && w.past.issued[r.predecessor.value] == Remove
            && (w.removal.Some? ==>
                  && w.removal.value.producer == r.predecessor.value
                  && w.removal.value.removedVersion == r.sourceVersion
                  && SameChoices(w.removal.value.participants, r.participants))
            && (!r.phase.Finalizing? ==> w.removal.Some?)
            && (r.phase.Finalizing? ==> w.install == Some(ExactInstall(r)))
            && (w.install.Some? && w.install.value.installGeneration == r.generation ==>
                  NonePending(r.participants) && w.install == Some(ExactInstall(r))))
  }

  /** A removal keeps its controller until the reinstall takes it over; the reinstall has it under one name only. */
  ghost predicate ControllerInv(w: World) {
    && w.controllers <= w.past.issued.Keys
    && (w.record.Some? ==>
          var r := w.record.value;
          && (r.kind.Upgrade? && (r.phase.PublishersStopped? || r.phase.Settling?) ==> r.generation in w.controllers)
          && (r.kind.Remove? && QuietPhase(r) && !r.phase.Finalizing? ==> r.generation in w.controllers)
          && (r.kind.Reinstall? && r.predecessor.Some? && !r.phase.Finalizing? ==>
                (r.predecessor.value in w.controllers <==> r.generation !in w.controllers)))
    && (w.removal.Some? && !(w.record.Some? && w.record.value.kind.Reinstall?) ==>
          w.removal.value.producer in w.controllers)
  }

  /** A generation once rolled back has no receipt and no future. */
  ghost predicate PastInv(w: World) {
    && w.past.receipted <= w.past.issued.Keys
    && (forall g :: g in w.past.rolledBack ==> g in w.past.issued && w.past.issued[g] == Remove)
    && (w.removal.Some? ==> w.removal.value.producer in w.past.receipted - w.past.rolledBack)
    && (w.record.Some? ==> (w.record.value.generation in w.past.rolledBack <==> w.record.value.disposition.Rollback?))
    && (w.intent.Some? && w.intent.value.generation in w.past.rolledBack ==>
          w.record.Some? && w.record.value.generation == w.intent.value.generation)
  }

  ghost predicate Inv(w: World) {
    UsersInv(w) && ShapeInv(w) && SettlementInv(w) && QuietInv(w) && ReceiptInv(w) && ControllerInv(w) && PastInv(w)
  }

  lemma IntentWrittenKeeps(w: World, i: QuiesceIntent, w': World)
    requires Inv(w) && IntentWrittenStep(w, i, w')
    ensures Inv(w')
  {
  }

  lemma IntentAdoptedKeeps(w: World, w': World)
    requires Inv(w) && IntentAdoptedStep(w, w')
    ensures Inv(w')
  {
  }

  lemma IntentClearedKeeps(w: World, w': World)
    requires Inv(w) && IntentClearedStep(w, w')
    ensures Inv(w')
  {
  }

  lemma RecordCreatedKeeps(w: World, r: Record, w': World)
    requires Inv(w) && RecordCreatedStep(w, r, w')
    ensures Inv(w')
  {
  }

  lemma ReinstallCreatedKeeps(w: World, r: Record, w': World)
    requires Inv(w) && ReinstallCreatedStep(w, r, w')
    ensures Inv(w')
  {
  }

  lemma PurgeMarkedKeeps(w: World, r: Record, w': World)
    requires Inv(w) && PurgeMarkedStep(w, r, w')
    ensures Inv(w')
  {
  }

  lemma RuntimeRecordedKeeps(w: World, i: nat, identity: Identity, w': World)
    requires Inv(w) && RuntimeRecordedStep(w, i, identity, w')
    ensures Inv(w')
  {
  }

  lemma StopsRecordedKeeps(w: World, w': World)
    requires Inv(w) && StopsRecordedStep(w, w')
    ensures Inv(w')
  {
  }

  lemma SettlingBegunKeeps(w: World, w': World)
    requires Inv(w) && SettlingBegunStep(w, w')
    ensures Inv(w')
  {
  }

  lemma ParticipantSettledKeeps(w: World, i: nat, s: Settlement, w': World)
    requires Inv(w) && ParticipantSettledStep(w, i, s, w')
    ensures Inv(w')
  {
  }

  lemma RemovalWrittenKeeps(w: World, w': World)
    requires Inv(w) && RemovalWrittenStep(w, w')
    ensures Inv(w')
  {
  }

  lemma InstallWrittenKeeps(w: World, w': World)
    requires Inv(w) && InstallWrittenStep(w, w')
    ensures Inv(w')
  {
  }

  lemma FinalizingReachedKeeps(w: World, w': World)
    requires Inv(w) && FinalizingReachedStep(w, w')
    ensures Inv(w')
  {
  }

  lemma RolledBackKeeps(w: World, w': World)
    requires Inv(w) && RolledBackStep(w, w')
    ensures Inv(w')
  {
  }

  lemma PurgeFinalizedKeeps(w: World, w': World)
    requires Inv(w) && PurgeFinalizedStep(w, w')
    ensures Inv(w')
  {
  }

  lemma RemovalConsumedKeeps(w: World, w': World)
    requires Inv(w) && RemovalConsumedStep(w, w')
    ensures Inv(w')
  {
  }

  lemma RecordClearedKeeps(w: World, w': World)
    requires Inv(w) && RecordClearedStep(w, w')
    ensures Inv(w')
  {
  }

  lemma ControllerPreparedKeeps(w: World, g: Generation, w': World)
    requires Inv(w) && ControllerPreparedStep(w, g, w')
    ensures Inv(w')
  {
  }

  lemma ControllerMovedKeeps(w: World, p: Generation, s: Generation, w': World)
    requires Inv(w) && ControllerMovedStep(w, p, s, w')
    ensures Inv(w')
  {
  }

  lemma ControllerRetiredKeeps(w: World, w': World)
    requires Inv(w) && ControllerRetiredStep(w, w')
    ensures Inv(w')
  {
  }

  lemma ControllerPurgedKeeps(w: World, g: Generation, w': World)
    requires Inv(w) && ControllerPurgedStep(w, g, w')
    ensures Inv(w')
  {
  }

  lemma QuarantineDeletedKeeps(w: World, g: Generation, w': World)
    requires Inv(w) && QuarantineDeletedStep(w, g, w')
    ensures Inv(w')
  {
  }

  lemma AckPurgedKeeps(w: World, uid: Uid, w': World)
    requires Inv(w) && AckPurgedStep(w, uid, w')
    ensures Inv(w')
  {
  }

  lemma InstallPurgedKeeps(w: World, w': World)
    requires Inv(w) && InstallPurgedStep(w, w')
    ensures Inv(w')
  {
  }

  lemma RemovalPurgedKeeps(w: World, w': World)
    requires Inv(w) && RemovalPurgedStep(w, w')
    ensures Inv(w')
  {
  }

  lemma EffectKeeps(w: World, op: EffectOp, uid: Uid, w': World)
    requires Inv(w) && EffectStep(w, op, uid, w')
    ensures Inv(w')
  {
    if w' == Quieted(w, uid) || w' == Suppressed(w, uid) {
      assert Inv(w');
    } else if w' != w {
      assert Restoring(w.record.value) && w.record.value.phase.Settling?;
    }
  }

  lemma ProviderStartedKeeps(w: World, uid: Uid, asSuccessor: bool, w': World)
    requires Inv(w) && ProviderStartedStep(w, uid, asSuccessor, w')
    ensures Inv(w')
  {
  }

  lemma BootstrapWrittenKeeps(w: World, i: QuiesceIntent, w': World)
    requires Inv(w) && BootstrapWrittenStep(w, i, w')
    ensures Inv(w')
  {
  }

  lemma BootstrapUnwoundKeeps(w: World, cleared: bool, w': World)
    requires Inv(w) && BootstrapUnwoundStep(w, cleared, w')
    ensures Inv(w')
  {
  }

  /** The steps on the record and the intent. */
  predicate IsOperationWrite(e: Event) {
    e.IntentWritten? || e.IntentAdopted? || e.IntentCleared? || e.RecordCreated? || e.ReinstallCreated?
    || e.PurgeMarked? || e.RuntimeRecorded? || e.StopsRecorded? || e.SettlingBegun? || e.ParticipantSettled?
    || e.FinalizingReached? || e.RolledBack? || e.PurgeFinalized? || e.RecordCleared?
  }

  lemma OperationWriteKeepsInv(w: World, e: Event, w': World)
    requires Inv(w) && Step(w, e, w') && IsOperationWrite(e)
    ensures Inv(w')
  {
    match e
    case IntentWritten(i) => IntentWrittenKeeps(w, i, w');
    case IntentAdopted => IntentAdoptedKeeps(w, w');
    case IntentCleared => IntentClearedKeeps(w, w');
    case RecordCreated(r) => RecordCreatedKeeps(w, r, w');
    case ReinstallCreated(r) => ReinstallCreatedKeeps(w, r, w');
    case PurgeMarked(r) => PurgeMarkedKeeps(w, r, w');
    case RuntimeRecorded(i, identity) => RuntimeRecordedKeeps(w, i, identity, w');
    case StopsRecorded => StopsRecordedKeeps(w, w');
    case SettlingBegun => SettlingBegunKeeps(w, w');
    case ParticipantSettled(i, s) => ParticipantSettledKeeps(w, i, s, w');
    case FinalizingReached => FinalizingReachedKeeps(w, w');
    case RolledBack => RolledBackKeeps(w, w');
    case PurgeFinalized => PurgeFinalizedKeeps(w, w');
    case RecordCleared => RecordClearedKeeps(w, w');
  }

  predicate IsFileWrite(e: Event) {
    e.RemovalWritten? || e.InstallWritten? || e.RemovalConsumed? || e.ControllerPrepared? || e.ControllerMoved?
    || e.ControllerRetired? || e.ControllerPurged? || e.QuarantineDeleted? || e.InstallPurged? || e.RemovalPurged?
    || e.AckPurged?
  }

  lemma FileWriteKeepsInv(w: World, e: Event, w': World)
    requires Inv(w) && Step(w, e, w') && IsFileWrite(e)
    ensures Inv(w')
  {
    match e
    case RemovalWritten => RemovalWrittenKeeps(w, w');
    case InstallWritten => InstallWrittenKeeps(w, w');
    case RemovalConsumed => RemovalConsumedKeeps(w, w');
    case ControllerPrepared(g) => ControllerPreparedKeeps(w, g, w');
    case ControllerMoved(p, s) => ControllerMovedKeeps(w, p, s, w');
    case ControllerRetired => ControllerRetiredKeeps(w, w');
    case ControllerPurged(g) => ControllerPurgedKeeps(w, g, w');
    case QuarantineDeleted(g) => QuarantineDeletedKeeps(w, g, w');
    case AckPurged(uid) => AckPurgedKeeps(w, uid, w');
    case InstallPurged => InstallPurgedKeeps(w, w');
    case RemovalPurged => RemovalPurgedKeeps(w, w');
  }

  /** Users log in and out, change their minds, and their providers come and go. */
  predicate IsUserStep(e: Event) {
    || e.LoggedIn? || e.LoggedOut? || e.ProviderGone? || e.ChoiceMade? || e.Acknowledged? || e.SettingsChanged?
    || e.ProviderStarted?
  }

  lemma SessionEndKeeps(w: World, uid: Uid, w': World)
    requires Inv(w) && w' == Quieted(w, uid).(runtime := w.runtime - {uid})
    ensures Inv(w')
  {
  }

  lemma ChoiceMadeKeeps(w: World, uid: Uid, enable: bool, w': World)
    requires Inv(w) && w.record.None? && w' == ChoiceApplied(w, uid, enable)
    ensures Inv(w')
  {
  }

  lemma SettingsChangedKeeps(w: World, misplaced: set<Uid>, switching: set<Uid>, w': World)
    requires Inv(w) && w' == w.(misplaced := misplaced, switching := switching)
    ensures Inv(w')
  {
  }

  lemma AcknowledgedKeeps(w: World, uid: Uid, ack: Ack, w': World)
    requires Inv(w) && w' == w.(acks := w.acks[uid := ack])
    ensures Inv(w')
  {
  }

  lemma LoggedInKeeps(w: World, uid: Uid, identity: Identity, w': World)
    requires Inv(w) && uid !in w.runtime && w' == w.(runtime := w.runtime[uid := identity])
    ensures Inv(w')
  {
  }

  lemma UserStepKeepsInv(w: World, e: Event, w': World)
    requires Inv(w) && Step(w, e, w') && IsUserStep(e)
    ensures Inv(w')
  {
    match e
    case LoggedOut(uid) => SessionEndKeeps(w, uid, w');
    case ChoiceMade(uid, enable) => ChoiceMadeKeeps(w, uid, enable, w');
    case ProviderStarted(uid, asSuccessor) => ProviderStartedKeeps(w, uid, asSuccessor, w');
    case LoggedIn(uid, identity) => LoggedInKeeps(w, uid, identity, w');
    case ProviderGone(uid) => assert Inv(w');
    case Acknowledged(uid, ack) => AcknowledgedKeeps(w, uid, ack, w');
    case SettingsChanged(misplaced, switching) => SettingsChangedKeeps(w, misplaced, switching, w');
  }

  lemma StepKeepsInv(w: World, e: Event, w': World)
    requires Inv(w) && Step(w, e, w')
    ensures Inv(w')
  {
    if IsOperationWrite(e) {
      OperationWriteKeepsInv(w, e, w');
    } else if IsFileWrite(e) {
      FileWriteKeepsInv(w, e, w');
    } else if IsUserStep(e) {
      UserStepKeepsInv(w, e, w');
    } else if e.EffectRun? {
      EffectKeeps(w, e.op, e.uid, w');
    } else if e.BootstrapWritten? {
      BootstrapWrittenKeeps(w, e.intent, w');
    } else {
      BootstrapUnwoundKeeps(w, e.cleared, w');
    }
  }
}
