/**
 * The transition system of the package operation controller: everything that survives a crash (the package root and
 * the users' managers), the steps the controller may take on it, and the steps the rest of the machine may take.
 * Each durable write is one step, because files are replaced by rename. Losing the controller between two steps is
 * a crash: nothing but the World is left.
 */
module PackageWorld {
  import opened Wrappers
  import opened Text
  import opened PackageTypes

  datatype Identity = Identity(device: nat, inode: nat)

  /** What a user's acknowledgement file says. */
  datatype Ack = Ack(profile: Profile, identity: Identity, enabled: bool)

  /** History variables: on no disk, used only to state properties of runs. */
  datatype Past = Past(issued: map<Generation, Kind>, receipted: set<Generation>, rolledBack: set<Generation>)

  datatype World = World(
    record: Option<Record>,
    intent: Option<QuiesceIntent>,
    removal: Option<RemovalReceipt>,
    install: Option<InstallReceipt>,
    controllers: set<Generation>,    // package-controller-<generation> files
    quarantines: set<Generation>,    // legacy-executable-<generation> files
    strays: set<string>,             // any other entry of the package root
    acks: map<Uid, Ack>,             // acknowledgement files of the users
    runtime: map<Uid, Identity>,     // runtime directories of logged-in users
    enabled: set<Uid>,               // users whose manager starts the provider
    registered: set<Uid>,            // users with a provider registration
    ready: set<Uid>,                 // users whose registered provider is the expected successor and answers
    misplaced: set<Uid>,             // users whose other directories are not the acknowledged ones
    switching: set<Uid>,             // users with a background transition in progress
    past: Past)

  datatype EffectOp = Refresh | Stop | Suppress | Cleanup | Recover | Restore | Confirm

  datatype Event =
    // the controller's durable writes
    | IntentWritten(intent: QuiesceIntent)
    | IntentAdopted
    | IntentCleared
    | RecordCreated(record: Record)
    | ReinstallCreated(record: Record)
    | PurgeMarked(record: Record)
    | RuntimeRecorded(index: nat, identity: Identity)
    | StopsRecorded
    | SettlingBegun
    | ParticipantSettled(index: nat, settlement: Settlement)
    | RemovalWritten
    | InstallWritten
    | FinalizingReached
    | RolledBack
    | PurgeFinalized
    | RemovalConsumed
    | RecordCleared
    | ControllerPrepared(generation: Generation)
    | ControllerMoved(predecessor: Generation, successor: Generation)
    | ControllerRetired
    | ControllerPurged(generation: Generation)
    | QuarantineDeleted(generation: Generation)
    | AckPurged(uid: Uid)
    | InstallPurged
    | RemovalPurged
    // the controller's effects on one user
    | EffectRun(op: EffectOp, uid: Uid)
    // the rest of the machine
    | LoggedIn(uid: Uid, identity: Identity)
    | LoggedOut(uid: Uid)
    | ProviderStarted(uid: Uid, asSuccessor: bool)
    | ProviderGone(uid: Uid)
    | ChoiceMade(uid: Uid, enable: bool)
    | Acknowledged(uid: Uid, ack: Ack)
    | SettingsChanged(misplaced: set<Uid>, switching: set<Uid>)
    | BootstrapWritten(intent: QuiesceIntent)
    | BootstrapUnwound(cleared: bool)

  function BaseKind(kind: Kind): Kind {
    if kind.Purge? then Remove else kind
  }

  function Issue(past: Past, g: Generation, kind: Kind): Past {
    past.(issued := past.issued[g := kind])
  }

  // ---- users ----

  /** The participant's directories are the recorded ones; no runtime directory need be mounted. */
  predicate DirectoriesValid(w: World, p: Participant) {
    && p.uid !in w.misplaced
    && (p.uid in w.runtime ==>
          p.runtimeDevice == Some(w.runtime[p.uid].device) && p.runtimeInode == Some(w.runtime[p.uid].inode))
  }

  function Joined(w: World, uid: Uid): Participant
    requires uid in w.acks
  {
    var ack := w.acks[uid];
    var present := uid in w.runtime;
    Participant(uid, ack.profile, if present then Some(ack.identity.device) else None,
                if present then Some(ack.identity.inode) else None, ack.enabled, Pending)
  }

  /**
   * No acknowledged user is in the middle of a background transition, and their directories are the acknowledged
   * ones; the runtime directory may be missing.
   */
  predicate Discoverable(w: World) {
    forall uid :: uid in w.acks ==>
      uid !in w.misplaced && uid !in w.switching && (uid in w.runtime ==> w.runtime[uid] == w.acks[uid].identity)
  }

  /** `ps` lists every acknowledged user once, in uid order, pending, with the acknowledged choice. */
  ghost predicate IsDiscovery(w: World, ps: seq<Participant>) {
    && Ascending(ps)
    && (forall p :: p in ps ==> p.uid in w.acks && p == Joined(w, p.uid))
    && (forall uid :: uid in w.acks ==> Joined(w, uid) in ps)
  }

  function InsertByUid(ps: seq<Participant>, p: Participant): (qs: seq<Participant>)
    requires Ascending(ps) && forall q :: q in ps ==> q.uid != p.uid
    ensures Ascending(qs)
    ensures forall q :: q in qs <==> q in ps || q == p
  {
    if |ps| == 0 || p.uid < ps[0].uid then [p] + ps
    else
      assert forall q :: q in ps[1..] ==> ps[0].uid < q.uid;
      assert ps == [ps[0]] + ps[1..];
      [ps[0]] + InsertByUid(ps[1..], p)
  }

  /** Whatever the acknowledgements, there is a list that discovery can return. */
  lemma {:induction false} DiscoveryExists(w: World, uids: set<Uid>) returns (ps: seq<Participant>)
    requires uids <= w.acks.Keys
    ensures Ascending(ps)
    ensures forall p :: p in ps ==> p.uid in uids && p == Joined(w, p.uid)
    ensures forall uid :: uid in uids ==> Joined(w, uid) in ps
  {
    ps := [];
    if uids != {} {
      var uid :| uid in uids;
      var rest := DiscoveryExists(w, uids - {uid});
      ps := InsertByUid(rest, Joined(w, uid));
    }
  }

  function Quieted(w: World, uid: Uid): World {
    w.(registered := w.registered - {uid}, ready := w.ready - {uid})
  }

  function Suppressed(w: World, uid: Uid): World {
    w.(enabled := w.enabled - {uid}, ready := w.ready - {uid})
  }

  /** What enabling or disabling does at once; an enabled provider registers later, on its own. */
  function ChoiceApplied(w: World, uid: Uid, enable: bool): World {
    if enable then w.(enabled := w.enabled + {uid}) else Suppressed(w, uid)
  }

  predicate SettlementFits(p: Participant, s: Settlement) {
    if p.enabled then s.SuccessorReady? || s.DeferredEnabled? else s.Disabled?
  }

  /** The user's manager holds the recorded choice. */
  predicate ChoiceHeld(w: World, p: Participant) {
    p.uid in w.enabled <==> p.enabled
  }

  /** The record lets this user's successor start while it is being restored. */
  predicate AdmitsSuccessor(w: World, r: Record, uid: Uid) {
    && Restoring(r)
    && r.phase.Settling?
    && exists i :: 0 <= i < |r.participants| && r.participants[i].uid == uid
                   && r.participants[i].enabled && r.participants[i].settlement.Pending?
                   && DirectoriesValid(w, r.participants[i])
  }

  /** Startup admission: no intent, and no record or one that admits this user. */
  predicate AdmitsStart(w: World, uid: Uid) {
    w.intent.None? && (w.record.None? || AdmitsSuccessor(w, w.record.value, uid))
  }

  // ---- steps of the controller ----

  predicate Has(w: World) {
    w.record.Some?
  }

  ghost predicate IntentWrittenStep(w: World, i: QuiesceIntent, w': World) {
    && w.intent.None? && i.bootstrap.None?
    && (i.kind.Upgrade? || i.kind.Remove?)
    && IsUuid(i.generation) && i.generation !in w.past.issued
    && w' == w.(intent := Some(i), past := Issue(w.past, i.generation, i.kind))
  }

  ghost predicate IntentAdoptedStep(w: World, w': World) {
    && w.intent.Some? && w.intent.value.bootstrap.Some? && w.intent.value.bootstrap.value.phase.Quiesced?
    && Has(w) && w.record.value.generation == w.intent.value.generation && !w.record.value.phase.IntentRecorded?
    && w' == w.(intent := Some(w.intent.value.(bootstrap := Some(w.intent.value.bootstrap.value.(phase := Adopted)))))
  }

  /** An intent goes once its record has stopped everybody, or when there is nothing to undo. */
  ghost predicate IntentClearedStep(w: World, w': World) {
    && w.intent.Some?
    && (Has(w) ==> w.record.value.generation == w.intent.value.generation && !w.record.value.phase.IntentRecorded?)
    && w' == w.(intent := None)
  }

  ghost predicate RecordCreatedStep(w: World, r: Record, w': World) {
    && w.record.None?
    && (r.kind.Upgrade? || r.kind.Remove?) && r.disposition.Forward? && r.phase.IntentRecorded? && r.predecessor.None?
    && IsUuid(r.generation) && IsDiscovery(w, r.participants)
    && (if w.intent.Some? && w.intent.value.generation == r.generation then
          && w.intent.value.kind == r.kind
          && r.sourceVersion == w.intent.value.sourceVersion && r.targetVersion == w.intent.value.targetVersion
          && w' == w.(record := Some(r))
        else
          r.generation !in w.past.issued
          && w' == w.(record := Some(r), past := Issue(w.past, r.generation, r.kind)))
  }

  ghost predicate ReinstallCreatedStep(w: World, r: Record, w': World) {
    && w.record.None? && w.removal.Some?
    && r.kind.Reinstall? && r.disposition.Forward? && r.phase.PublishersStopped?
    && IsUuid(r.generation) && r.generation !in w.past.issued
    && r.predecessor == Some(w.removal.value.producer) && r.sourceVersion == w.removal.value.removedVersion
    && r.participants == Settled(w.removal.value.participants, Pending)
    && w' == w.(record := Some(r), past := Issue(w.past, r.generation, Reinstall))
  }

  /** The removal a purge may take over: a forward record, a receipt, or only an intent. */
  ghost predicate PurgeMarkedStep(w: World, r: Record, w': World) {
    && r.kind.Purge? && r.disposition.Forward? && r.predecessor.None?
    && (if Has(w) then
          && w.record.value.disposition.Forward? && (w.record.value.kind.Remove? || w.record.value.kind.Purge?)
          && r == w.record.value.(kind := Purge)
        else if w.removal.Some? then
          && r.generation == w.removal.value.producer && r.phase.Finalizing?
          && r.participants == w.removal.value.participants && AllDisabled(r.participants)
        else
          && w.intent.Some? && w.intent.value.kind.Remove? && r.generation == w.intent.value.generation
          && r.sourceVersion == w.intent.value.sourceVersion && r.targetVersion == w.intent.value.targetVersion
          && r.phase.IntentRecorded? && IsDiscovery(w, r.participants))
    && w' == w.(record := Some(r))
  }

  /**
   * A runtime directory is only ever recorded where none was, for a user not yet settled. It was mounted when it was
   * looked up, but need not be any more.
   */
  ghost predicate RuntimeRecordedStep(w: World, i: nat, identity: Identity, w': World) {
    && Has(w) && i < |w.record.value.participants|
    && w.record.value.participants[i].runtimeDevice.None?
    && w.record.value.participants[i].settlement.Pending?
    && (w.record.value.phase.IntentRecorded? || w.record.value.phase.Settling?)
    && w' == w.(record := Some(WithRuntime(w.record.value, i, identity.device, identity.inode)))
  }

  ghost predicate QuietUsers(w: World, ps: seq<Participant>) {
    forall i :: 0 <= i < |ps| ==> ps[i].uid !in w.enabled && ps[i].uid !in w.registered
  }

  ghost predicate StopsRecordedStep(w: World, w': World) {
    && Has(w) && w.record.value.phase.IntentRecorded?
    && QuietUsers(w, w.record.value.participants)
    && w.record.value.generation in w.controllers
    && w' == w.(record := Some(w.record.value.(phase := PublishersStopped)))
  }

  ghost predicate SettlingBegunStep(w: World, w': World) {
    && Has(w) && w.record.value.phase.PublishersStopped? && !w.record.value.kind.Purge?
    && w' == w.(record := Some(w.record.value.(phase := Settling)))
  }

  ghost predicate ParticipantSettledStep(w: World, i: nat, s: Settlement, w': World) {
    && Has(w) && w.record.value.phase.Settling? && !w.record.value.kind.Purge?
    && i < |w.record.value.participants|
    && var p := w.record.value.participants[i];
    && p.settlement.Pending?
    && (if Restoring(w.record.value) then SettlementFits(p, s) && ChoiceHeld(w, p) else s.Disabled?)
    && w' == w.(record := Some(WithSettlement(w.record.value, i, s)))
  }

  ghost predicate RemovalWrittenStep(w: World, w': World) {
    && Has(w) && w.record.value.kind.Remove? && w.record.value.disposition.Forward? && w.record.value.phase.Settling?
    && NonePending(w.record.value.participants)
    && w.removal.None?
    && w' == w.(removal := Some(ExactRemoval(w.record.value)),
                past := w.past.(receipted := w.past.receipted + {w.record.value.generation}))
  }

  /** A receipt of an earlier install may be replaced only if it installed the version this reinstall started from. */
  predicate InstallAccepted(install: Option<InstallReceipt>, r: Record)
    requires r.predecessor.Some?
  {
    install.Some? && install != Some(ExactInstall(r)) ==>
      install.value.installGeneration != r.generation && install.value.installedVersion == r.sourceVersion
  }

  ghost predicate InstallWrittenStep(w: World, w': World) {
    && Has(w) && w.record.value.kind.Reinstall? && w.record.value.phase.Settling? && w.record.value.predecessor.Some?
    && NonePending(w.record.value.participants)
    && InstallAccepted(w.install, w.record.value)
    && w' == w.(install := Some(ExactInstall(w.record.value)))
  }

  ghost predicate FinalizingReachedStep(w: World, w': World) {
    && Has(w) && w.record.value.phase.Settling? && !w.record.value.kind.Purge?
    && NonePending(w.record.value.participants)
    && (w.record.value.kind.Remove? && w.record.value.disposition.Forward? ==>
          w.removal == Some(ExactRemoval(w.record.value)))
    && (w.record.value.kind.Reinstall? ==>
          w.record.value.predecessor.Some? && w.install == Some(ExactInstall(w.record.value)))
    && w' == w.(record := Some(w.record.value.(phase := Finalizing)))
  }

  /** Turning a removal back: only before it has begun to settle, and never one that has a receipt. */
  ghost predicate RolledBackStep(w: World, w': World) {
    && Has(w) && w.record.value.kind.Remove? && w.record.value.disposition.Forward?
    && (w.record.value.phase.IntentRecorded? || w.record.value.phase.PublishersStopped?)
    && (w.intent.Some? ==> w.intent.value.generation == w.record.value.generation)
    && (w.removal.Some? ==> w.removal.value.producer != w.record.value.generation)
    && w' == w.(record := Some(w.record.value.(disposition := Rollback, phase := Settling)),
                past := w.past.(rolledBack := w.past.rolledBack + {w.record.value.generation}))
  }

  ghost predicate PurgeFinalizedStep(w: World, w': World) {
    && Has(w) && w.record.value.kind.Purge?
    && (w.record.value.phase.PublishersStopped? || w.record.value.phase.Settling?)
    && w' == w.(record := Some(w.record.value.(phase := Finalizing,
                                               participants := Settled(w.record.value.participants, Disabled))))
  }

  ghost predicate RemovalConsumedStep(w: World, w': World) {
    && Has(w) && w.record.value.kind.Reinstall? && w.record.value.phase.Finalizing?
    && w.removal.Some? && w.record.value.predecessor == Some(w.removal.value.producer)
    && w' == w.(removal := None)
  }

  ghost predicate RecordClearedStep(w: World, w': World) {
    && Has(w) && w.record.value.phase.Finalizing?
    && (Restoring(w.record.value) ==> w.record.value.generation !in w.controllers)
    && (w.record.value.kind.Reinstall? ==> w.removal.None?)
    && (w.record.value.disposition.Rollback? ==>
          w.intent.Some? ==> w.intent.value.generation != w.record.value.generation)
    && (w.record.value.kind.Purge? ==> w.removal.None? && w.install.None? && w.acks == map[] && w.intent.None?)
    && w' == w.(record := None)
  }

  ghost predicate ControllerPreparedStep(w: World, g: Generation, w': World) {
    && Has(w) && w.record.value.generation == g && !w.record.value.kind.Reinstall?
    && w' == w.(controllers := w.controllers + {g})
  }

  ghost predicate ControllerMovedStep(w: World, predecessor: Generation, successor: Generation, w': World) {
    && Has(w) && w.record.value.kind.Reinstall? && w.record.value.phase.PublishersStopped?
    && w.record.value.predecessor == Some(predecessor) && w.record.value.generation == successor
    && predecessor in w.controllers && successor !in w.controllers
    && w' == w.(controllers := w.controllers - {predecessor} + {successor})
  }

  ghost predicate ControllerRetiredStep(w: World, w': World) {
    && Has(w) && Restoring(w.record.value) && w.record.value.phase.Finalizing?
    && w' == w.(controllers := w.controllers - {w.record.value.generation})
  }

  predicate NothingLeft(w: World) {
    w.record.None? && w.removal.None? && w.install.None? && w.intent.None?
  }

  ghost predicate ControllerPurgedStep(w: World, g: Generation, w': World) {
    && NothingLeft(w)
    && w' == w.(controllers := w.controllers - {g})
  }

  ghost predicate QuarantineDeletedStep(w: World, g: Generation, w': World) {
    && w.intent.Some? && w.intent.value.generation == g
    && w.intent.value.bootstrap.Some? && w.intent.value.bootstrap.value.phase.Adopted?
    && w' == w.(quarantines := w.quarantines - {g})
  }

  predicate Purging(w: World) {
    Has(w) && w.record.value.kind.Purge? && w.record.value.phase.Finalizing?
  }

  ghost predicate AckPurgedStep(w: World, uid: Uid, w': World) {
    && (Purging(w) || NothingLeft(w))
    && w' == w.(acks := w.acks - {uid})
  }

  ghost predicate InstallPurgedStep(w: World, w': World) {
    Purging(w) && w.acks == map[] && w' == w.(install := None)
  }

  ghost predicate RemovalPurgedStep(w: World, w': World) {
    Purging(w) && w.acks == map[] && w.install.None? && w' == w.(removal := None)
  }

  // ---- effects ----

  /** The record names the user, who is still pending; only a purge re-checks users already settled. */
  predicate Addressed(r: Record, op: EffectOp, uid: Uid) {
    exists i :: 0 <= i < |r.participants| && r.participants[i].uid == uid
                && (r.participants[i].settlement.Pending? || (r.kind.Purge? && op.Cleanup?))
  }

  ghost predicate EffectStep(w: World, op: EffectOp, uid: Uid, w': World) {
    && Has(w) && Addressed(w.record.value, op, uid)
    && match op
       case Stop => w' == w || w' == Quieted(w, uid)
       case Suppress => w.record.value.phase.IntentRecorded? && (w' == w || w' == Suppressed(w, uid))
       case Restore =>
         && Restoring(w.record.value) && w.record.value.phase.Settling?
         && (w' == w
             || exists i :: 0 <= i < |w.record.value.participants| && w.record.value.participants[i].uid == uid
                            && w' == ChoiceApplied(w, uid, w.record.value.participants[i].enabled))
       case _ => w' == w
  }

  // ---- steps of the rest of the machine ----

  /** A provider registers only when admitted; it counts as the successor only where the manager starts it. */
  ghost predicate ProviderStartedStep(w: World, uid: Uid, asSuccessor: bool, w': World) {
    && uid in w.runtime && AdmitsStart(w, uid)
    && (asSuccessor ==> uid in w.enabled)
    && w' == w.(registered := w.registered + {uid}, ready := if asSuccessor then w.ready + {uid} else w.ready)
  }

  /** The pre-installation script announces a bootstrap, sets the legacy executable aside, then says so. */
  ghost predicate BootstrapWrittenStep(w: World, i: QuiesceIntent, w': World) {
    && i.kind.Upgrade? && i.bootstrap.Some?
    && match i.bootstrap.value.phase
       case Quarantining =>
         && w.intent.None? && IsUuid(i.generation) && i.generation !in w.past.issued
         && w' == w.(intent := Some(i), past := Issue(w.past, i.generation, Upgrade))
       case Quiesced =>
         && w.intent == Some(i.(bootstrap := Some(i.bootstrap.value.(phase := Quarantining))))
         && w' == w.(intent := Some(i), quarantines := w.quarantines + {i.generation})
       case Adopted => false
  }

  /** A bootstrap is announced that no controller has adopted or begun to carry out. */
  predicate Unwindable(w: World) {
    && w.record.None? && w.intent.Some? && w.intent.value.bootstrap.Some?
    && !w.intent.value.bootstrap.value.phase.Adopted?
  }

  /**
   * The post-removal script unwinds such a bootstrap: it deletes the executable set aside, which it has put back
   * before, and then the intent.
   */
  ghost predicate BootstrapUnwoundStep(w: World, cleared: bool, w': World) {
    && Unwindable(w)
    && (if cleared then w.intent.value.generation !in w.quarantines && w' == w.(intent := None)
        else w' == w.(quarantines := w.quarantines - {w.intent.value.generation}))
  }

  ghost predicate Step(w: World, e: Event, w': World) {
    match e
    case IntentWritten(i) => IntentWrittenStep(w, i, w')
    case IntentAdopted => IntentAdoptedStep(w, w')
    case IntentCleared => IntentClearedStep(w, w')
    case RecordCreated(r) => RecordCreatedStep(w, r, w')
    case ReinstallCreated(r) => ReinstallCreatedStep(w, r, w')
    case PurgeMarked(r) => PurgeMarkedStep(w, r, w')
    case RuntimeRecorded(i, identity) => RuntimeRecordedStep(w, i, identity, w')
    case StopsRecorded => StopsRecordedStep(w, w')
    case SettlingBegun => SettlingBegunStep(w, w')
    case ParticipantSettled(i, s) => ParticipantSettledStep(w, i, s, w')
    case RemovalWritten => RemovalWrittenStep(w, w')
    case InstallWritten => InstallWrittenStep(w, w')
    case FinalizingReached => FinalizingReachedStep(w, w')
    case RolledBack => RolledBackStep(w, w')
    case PurgeFinalized => PurgeFinalizedStep(w, w')
    case RemovalConsumed => RemovalConsumedStep(w, w')
    case RecordCleared => RecordClearedStep(w, w')
    case ControllerPrepared(g) => ControllerPreparedStep(w, g, w')
    case ControllerMoved(p, s) => ControllerMovedStep(w, p, s, w')
    case ControllerRetired => ControllerRetiredStep(w, w')
    case ControllerPurged(g) => ControllerPurgedStep(w, g, w')
    case QuarantineDeleted(g) => QuarantineDeletedStep(w, g, w')
    case AckPurged(uid) => AckPurgedStep(w, uid, w')
    case InstallPurged => InstallPurgedStep(w, w')
    case RemovalPurged => RemovalPurgedStep(w, w')
    case EffectRun(op, uid) => EffectStep(w, op, uid, w')
    case LoggedIn(uid, identity) => uid !in w.runtime && w' == w.(runtime := w.runtime[uid := identity])
    case LoggedOut(uid) => w' == Quieted(w, uid).(runtime := w.runtime - {uid})
    case ProviderStarted(uid, asSuccessor) => ProviderStartedStep(w, uid, asSuccessor, w')
    case ProviderGone(uid) => w' == Quieted(w, uid)
    case ChoiceMade(uid, enable) => w.record.None? && w' == ChoiceApplied(w, uid, enable)
    case Acknowledged(uid, ack) => w' == w.(acks := w.acks[uid := ack])
    case SettingsChanged(misplaced, switching) => w' == w.(misplaced := misplaced, switching := switching)
    case BootstrapWritten(i) => BootstrapWrittenStep(w, i, w')
    case BootstrapUnwound(cleared) => BootstrapUnwoundStep(w, cleared, w')
  }
}
