/**
 * From which states each action of the controller succeeds, said once more by the fields of the files and by where
 * the users are. Nothing here uses the predicates that the actions themselves decide by.
 */
module PackageSuccess {
  import opened Wrappers
  import opened Text
  import opened PackageTypes
  import opened PackageWorld
  import opened PackageInvariant
  import opened PackageConditions
  import opened PackageActions
  import opened PackagePurge
  import opened PackageController

  /** The user's directories are where they were, and a mounted runtime directory is the recorded one. */
  predicate InPlace(w: World, p: Participant) {
    && p.uid !in w.misplaced
    && (p.uid in w.runtime ==>
          p.runtimeDevice == Some(w.runtime[p.uid].device) && p.runtimeInode == Some(w.runtime[p.uid].inode))
  }

  /** The same, or no runtime directory has been recorded yet. */
  predicate InPlaceOrNew(w: World, p: Participant) {
    p.uid !in w.misplaced && (p.runtimeDevice == None || InPlace(w, p))
  }

  predicate AllInPlace(w: World, ps: seq<Participant>) {
    forall i :: 0 <= i < |ps| ==> InPlace(w, ps[i])
  }

  predicate AllInPlaceOrNew(w: World, ps: seq<Participant>) {
    forall i :: 0 <= i < |ps| ==> InPlaceOrNew(w, ps[i])
  }

  /** Nobody who ever acknowledged is switching, and all their directories are the acknowledged ones. */
  predicate Steady(w: World) {
    forall uid :: uid in w.acks ==>
      uid !in w.misplaced && uid !in w.switching && (uid in w.runtime ==> w.runtime[uid] == w.acks[uid].identity)
  }

  /** The record is the operation the intent announces, going forward, with users who can still be stopped. */
  predicate Resumes(w: World, r: Record, i: QuiesceIntent) {
    && r.generation == i.generation && r.kind == i.kind && r.disposition == Forward
    && r.sourceVersion == i.sourceVersion && r.targetVersion == i.targetVersion
    && (r.phase == IntentRecorded ==> AllInPlaceOrNew(w, r.participants))
  }

  predicate Begins(w: World, kind: Kind, source: Version, target: Version) {
    && ValidVersion(source) && ValidVersion(target)
    && match w.intent
       case None => w.record == None && Steady(w)
       case Some(i) =>
         && i.kind == kind && i.sourceVersion == source && i.targetVersion == target
         && if w.record == None then Steady(w) else Resumes(w, w.record.value, i)
  }

  /** A pending user of a record that restores users. */
  predicate CanComeBack(w: World, p: Participant) {
    && InPlaceOrNew(w, p)
    && (p.uid in w.registered ==> p.enabled)
    && (p.enabled && p.uid in w.runtime && p.uid !in w.ready ==> w.intent == None)
  }

  /** A pending user of a record that removes them. */
  predicate CanGo(w: World, p: Participant) {
    InPlaceOrNew(w, p) && p.uid !in w.registered
  }

  /** What a removal receipt says of the participant: disabled, with the runtime directory that is known. */
  predicate WrittenOff(w: World, p: Participant, q: Participant) {
    if p.settlement != Pending then q == p
    else
      && q.uid == p.uid && q.profile == p.profile && q.enabled == p.enabled && q.settlement == Disabled
      && if p.runtimeDevice == None && p.uid in w.runtime then
           q.runtimeDevice == Some(w.runtime[p.uid].device) && q.runtimeInode == Some(w.runtime[p.uid].inode)
         else q.runtimeDevice == p.runtimeDevice && q.runtimeInode == p.runtimeInode
  }

  /** There is no removal receipt, or one that this removal has written. */
  predicate ReceiptIsFree(w: World, r: Record) {
    w.removal != None ==>
      && w.removal.value.producer == r.generation && w.removal.value.removedVersion == r.targetVersion
      && |w.removal.value.participants| == |r.participants|
      && forall i :: 0 <= i < |r.participants| ==> WrittenOff(w, r.participants[i], w.removal.value.participants[i])
  }

  predicate AllComeBack(w: World, r: Record) {
    forall i :: 0 <= i < |r.participants| && r.participants[i].settlement == Pending ==>
      CanComeBack(w, r.participants[i])
  }

  predicate AllGo(w: World, r: Record) {
    forall i :: 0 <= i < |r.participants| && r.participants[i].settlement == Pending ==> CanGo(w, r.participants[i])
  }

  predicate FinishesUpgrade(w: World, target: Version) {
    && w.record != None && w.record.value.kind == Upgrade && w.record.value.targetVersion == target
    && match w.record.value.phase
       case IntentRecorded => false
       case Finalizing => true
       case _ => AllComeBack(w, w.record.value)
  }

  predicate FinishesReinstall(w: World, target: Version) {
    && w.record != None && w.record.value.kind == Reinstall && w.record.value.targetVersion == target
    && (w.record.value.phase != Finalizing ==>
          && AllComeBack(w, w.record.value)
          && (|| w.install == None || w.install.value.installGeneration == w.record.value.generation
              || w.install.value.installedVersion == w.record.value.sourceVersion))
  }

  predicate FinishesRemoval(w: World, target: Version) {
    && w.record != None && w.record.value.kind == Remove && w.record.value.disposition == Forward
    && w.record.value.targetVersion == target
    && match w.record.value.phase
       case IntentRecorded => false
       case Finalizing => true
       case _ => AllGo(w, w.record.value) && ReceiptIsFree(w, w.record.value)
  }

  /** A removal announced or on record, not yet settling unless it was turned back before. */
  predicate TurnsBackFrom(w: World, target: Version) {
    && ValidVersion(target)
    && (w.intent != None ==>
          && w.intent.value.kind == Remove && w.intent.value.bootstrap == None
          && w.intent.value.sourceVersion == target && w.intent.value.targetVersion == target)
    && (w.record != None ==>
          var r := w.record.value;
          && r.kind == Remove && r.sourceVersion == target && r.targetVersion == target
          && (w.intent != None ==> w.intent.value.generation == r.generation)
          && (w.removal != None ==> w.removal.value.producer != r.generation)
          && (r.disposition == Forward ==> r.phase == IntentRecorded || r.phase == PublishersStopped)
          && (r.phase != Finalizing ==>
                forall i :: 0 <= i < |r.participants| && r.participants[i].settlement == Pending ==>
                  && InPlaceOrNew(w, r.participants[i])
                  && (r.participants[i].uid in w.registered ==> r.participants[i].enabled)))
  }

  /** The removal on record can be carried to its receipt. */
  predicate CarriesOn(w: World, r: Record) {
    && r.disposition == Forward
    && match r.phase
       case IntentRecorded => AllInPlace(w, r.participants) && ReceiptIsFree(w, r)
       case Finalizing => true
       case _ => AllGo(w, r) && ReceiptIsFree(w, r)
  }

  predicate Reinstalls(w: World, target: Version) {
    match w.record
    case None => w.removal != None
    case Some(r) =>
      if r.kind == Remove then CarriesOn(w, r)
      else
        && w.removal != None && r.kind == Reinstall && r.targetVersion == target && r.phase == PublishersStopped
        && |r.participants| == |w.removal.value.participants|
        && forall i :: 0 <= i < |r.participants| ==>
             && r.participants[i].runtimeDevice == w.removal.value.participants[i].runtimeDevice
             && r.participants[i].runtimeInode == w.removal.value.participants[i].runtimeInode
  }

  predicate Adopts(w: World) {
    && w.intent != None && w.intent.value.bootstrap != None
    && (match w.intent.value.bootstrap.value.phase
        case Quarantining => false
        case Quiesced => w.intent.value.generation in w.quarantines
        case Adopted => true)
    && if w.record == None then Steady(w) else Resumes(w, w.record.value, w.intent.value)
  }

  /** The removal a purge forgets is one of this version, going forward, and what is left of it belongs together. */
  predicate Forgets(w: World, target: Version) {
    && ValidVersion(target) && w.strays == {} && w.quarantines == {}
    && (w.intent != None ==> w.intent.value.kind == Remove && w.intent.value.targetVersion == target)
    && (w.removal != None ==> w.removal.value.removedVersion == target)
    && match w.record
       case Some(r) =>
         && r.disposition == Forward && (r.kind == Remove || r.kind == Purge) && r.targetVersion == target
         && w.controllers <= {r.generation}
         && (w.removal != None ==>
               w.removal.value.producer == r.generation && w.removal.value.participants == r.participants)
         && (w.intent != None ==>
               w.intent.value.generation == r.generation && w.intent.value.sourceVersion == r.sourceVersion)
         && (match r.phase
             case IntentRecorded => AllInPlaceOrNew(w, r.participants)
             case Finalizing => true
             case _ => AllInPlace(w, r.participants))
       case None =>
         if w.removal != None then
           && w.controllers <= {w.removal.value.producer}
           && (w.intent != None ==>
                 w.intent.value.generation == w.removal.value.producer && w.intent.value.sourceVersion == target)
         else if w.intent != None then w.controllers <= {w.intent.value.generation} && Steady(w)
         else w.install == None && |w.controllers| <= 1
  }

  /** Every action, by the files and the users. */
  predicate Succeeds(w: World, a: Action) {
    match a
    case Initialize => true
    case PrepareUpgrade(source, target) => Begins(w, Upgrade, source, target)
    case PrepareRemove(target) => Begins(w, Remove, target, target)
    case FinishUpgrade(target) => FinishesUpgrade(w, target)
    case AbortRemove(target) => TurnsBackFrom(w, target)
    case FinishRemove(target) => FinishesRemoval(w, target)
    case FinishPurge(target) => Forgets(w, target)
    case RecoverInstall(target) => FinishesUpgrade(w, target) || FinishesReinstall(w, target)
    case PrepareReinstall(target) => Reinstalls(w, target)
    case AdoptBootstrap => Adopts(w)
  }

  lemma BeginsIff(w: World, kind: Kind, source: Version, target: Version)
    requires Inv(w) && (kind == Upgrade || kind == Remove)
    ensures Begins(w, kind, source, target) <==> Announceable(w, kind, source, target)
  {
  }

  lemma AdoptsIff(w: World)
    requires Inv(w)
    ensures Adopts(w) <==> BootstrapAdoptable(w)
  {
  }

  lemma ReceiptIff(w: World, r: Record)
    ensures ReceiptIsFree(w, r) <==> RemovalReceiptFits(w, r)
  {
  }

  lemma UpgradeIff(w: World, target: Version)
    requires Inv(w)
    ensures FinishesUpgrade(w, target) <==> Finishable(w, Upgrade, target)
  {
  }

  lemma ReinstallIff(w: World, target: Version)
    requires Inv(w)
    ensures FinishesReinstall(w, target) <==> Finishable(w, Reinstall, target)
  {
  }

  lemma RemovalIff(w: World, target: Version)
    requires Inv(w)
    ensures FinishesRemoval(w, target) <==> !IsRollingBack(w) && Finishable(w, Remove, target)
  {
    if w.record != None {
      ReceiptIff(w, w.record.value);
    }
  }

  lemma TurnsBackIff(w: World, target: Version)
    requires Inv(w)
    ensures TurnsBackFrom(w, target) <==> Abortable(w, target)
  {
  }

  lemma ReinstallsIff(w: World, target: Version)
    requires Inv(w)
    ensures Reinstalls(w, target) <==> ReinstallRequestable(w, target)
  {
    if w.record != None && w.record.value.kind == Remove {
      ReceiptIff(w, w.record.value);
    } else if w.record != None && Reinstalls(w, target) {
      assert w.record.value.participants == Settled(w.removal.value.participants, Pending);
    }
  }

  lemma ForgetsIff(w: World, target: Version)
    requires Inv(w)
    ensures Forgets(w, target) <==> Purgeable(w, target)
  {
  }

  /** In every state a run can reach, the actions succeed without faults exactly as the files and the users say. */
  lemma SucceedsIffPerformable(w: World, a: Action)
    requires Inv(w)
    ensures Succeeds(w, a) <==> Performable(w, a)
  {
    match a {
      case Initialize =>
      case PrepareUpgrade(source, target) =>
        BeginsIff(w, Upgrade, source, target);
      case PrepareRemove(target) =>
        BeginsIff(w, Remove, target, target);
      case FinishUpgrade(target) =>
        UpgradeIff(w, target);
      case AbortRemove(target) =>
        TurnsBackIff(w, target);
      case FinishRemove(target) =>
        RemovalIff(w, target);
      case FinishPurge(target) =>
        ForgetsIff(w, target);
      case RecoverInstall(target) =>
        UpgradeIff(w, target);
        ReinstallIff(w, target);
      case PrepareReinstall(target) =>
        ReinstallsIff(w, target);
      case AdoptBootstrap =>
        AdoptsIff(w);
    }
  }
}
