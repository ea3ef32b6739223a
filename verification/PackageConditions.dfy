/**
 * From which states the package actions succeed, what they leave behind, and that a failure half-way does not spoil
 * what was possible before. All of it is about values; the methods of PackageControl are measured against it.
 */
module PackageConditions {
  import opened Wrappers
  import opened Text
  import opened PackageTypes
  import opened PackageWorld
  import opened PackageInvariant

  /** The participant's directories can be trusted, or its runtime directory is still to be recorded. */
  predicate Reachable(w: World, p: Participant) {
    p.uid !in w.misplaced && (p.uid in w.runtime ==> p.runtimeDevice.None? || DirectoriesValid(w, p))
  }

  /** Nobody logged in or out or acknowledged anything, and everybody's directories stayed as they were. */
  predicate SameSessions(w: World, w': World) {
    && w'.runtime == w.runtime && w'.acks == w.acks
    && w'.misplaced == w.misplaced && w'.switching == w.switching
  }

  /** No user but this one was touched, and no session changed. */
  predicate OnlyUser(w: World, w': World, uid: Uid) {
    && SameSessions(w, w')
    && w'.enabled - {uid} == w.enabled - {uid}
    && w'.registered - {uid} == w.registered - {uid}
    && w'.ready - {uid} == w.ready - {uid}
  }

  /**
   * What one turn of settling may do to the users: it touches this user alone, registers nobody it is not restoring,
   * and a successor that is ready already stays so.
   */
  predicate UserTurn(w: World, w': World, p: Participant, restoring: bool) {
    && OnlyUser(w, w', p.uid)
    && (p.uid in w'.registered ==> p.uid in w.registered || (restoring && p.enabled))
    && (restoring && p.enabled && p.uid in w.ready ==> p.uid in w'.ready)
  }

  /** The two states differ at most in the record, in the users and in what concerns these alone. */
  predicate SameFiles(w: World, w': World) {
    && w.intent == w'.intent && w.removal == w'.removal && w.install == w'.install
    && w.controllers == w'.controllers && w.quarantines == w'.quarantines && w.strays == w'.strays
    && w.past == w'.past
  }

  /** No provider is let in: an operation is announced, or one is on record that restores nobody now. */
  predicate DoorShut(w: World) {
    w.intent.Some? || (w.record.Some? && !(Restoring(w.record.value) && w.record.value.phase.Settling?))
  }

  /** Users come and go and the controller stops or disables them; behind a shut door nobody new is registered. */
  predicate Calmed(w: World, w': World) {
    && SameFiles(w, w') && w'.enabled <= w.enabled && w.acks.Keys <= w'.acks.Keys
    && (DoorShut(w) ==> DoorShut(w') && w'.registered <= w.registered)
  }

  /** Only users came and went. */
  predicate Drifted(w: World, w': World) {
    Calmed(w, w') && w'.record == w.record && w'.enabled == w.enabled
  }

  /** What is left of an interrupted restore: the choice applied, and at most the provider itself started. */
  function Restored(w: World, p: Participant): World {
    var applied := ChoiceApplied(w, p.uid, p.enabled);
    if p.enabled && p.uid in w.runtime then
      applied.(registered := applied.registered + {p.uid}, ready := applied.ready + {p.uid})
    else applied
  }

  function RestoredSettlement(w: World, p: Participant): Settlement {
    if !p.enabled then Disabled else if p.uid in w.runtime then SuccessorReady else DeferredEnabled
  }

  datatype Recovery = Absent | Ready(settlement: Settlement) | StopAndRetry

  function RecoveryOf(w: World, p: Participant): Recovery {
    if !p.enabled || p.uid !in w.runtime then Absent
    else if p.uid in w.ready then Ready(SuccessorReady)
    else if p.uid in w.registered then StopAndRetry
    else Absent
  }

  /** What confirming a restored participant looks at. */
  predicate Confirmed(w: World, p: Participant, s: Settlement) {
    && DirectoriesValid(w, p)
    && match s
       case SuccessorReady => p.enabled && p.uid in w.runtime && p.uid in w.ready
       case DeferredEnabled => p.enabled && p.uid !in w.runtime && p.uid in w.enabled
       case Disabled => !p.enabled && p.uid !in w.enabled
       case Pending => false
  }

  /** No announced operation keeps out the successor that this user, if enabled and logged in, needs. */
  predicate SuccessorWelcome(w: World, p: Participant) {
    p.enabled && p.uid in w.runtime ==> w.intent.None?
  }

  /** The comparison made after the locks are taken again. */
  predicate Unchanged(current: Option<Record>, r: Record) {
    && current.Some?
    && current.value.generation == r.generation
    && current.value.kind == r.kind
    && current.value.disposition == r.disposition
    && current.value.phase.Settling?
    && current.value.participants == r.participants
  }

  /** The participant once the runtime directory of a user who logged in since discovery is recorded. */
  function Known(w: World, p: Participant): Participant {
    if p.runtimeDevice.None? && p.uid in w.runtime then
      p.(runtimeDevice := Some(w.runtime[p.uid].device), runtimeInode := Some(w.runtime[p.uid].inode))
    else p
  }

  function RuntimeKnown(w: World, r: Record, i: nat): Record
    requires i < |r.participants|
  {
    r.(participants := r.participants[i := Known(w, r.participants[i])])
  }

  /**
   * Whether one user can be settled when nothing fails: a registration is in the way unless it is that of an enabled
   * user being restored, and a successor that still has to start must not be kept out by a pending intent.
   */
  predicate Settleable(w: World, r: Record, i: nat)
    requires i < |r.participants|
  {
    var p := r.participants[i];
    && Reachable(w, p)
    && (p.uid in w.registered ==> Restoring(r) && p.enabled)
    && (Restoring(r) && p.enabled && p.uid in w.runtime && p.uid !in w.ready ==> w.intent.None?)
  }

  lemma KnownRuntimeIsTrusted(w: World, r: Record, i: nat)
    requires i < |r.participants|
    ensures DirectoriesValid(w, RuntimeKnown(w, r, i).participants[i]) <==> Reachable(w, r.participants[i])
    ensures Settleable(w, RuntimeKnown(w, r, i), i) <==> Settleable(w, r, i)
    ensures Settleable(w, r, i) ==> DirectoriesValid(w, RuntimeKnown(w, r, i).participants[i])
  {
  }

  /** The participant as it will be written when its removal is settled. */
  function Removed(w: World, p: Participant): Participant {
    if !p.settlement.Pending? then p else Known(w, p).(settlement := Disabled)
  }

  /** The two are the same user with the same choice; runtime directory and settlement may have been recorded. */
  predicate SameUser(p: Participant, q: Participant) {
    q == p.(runtimeDevice := q.runtimeDevice, runtimeInode := q.runtimeInode, settlement := q.settlement)
  }

  /** However a turn went, it changed nothing of the record but this participant. */
  predicate OnlyTurned(r: Record, i: nat, later: Record)
    requires i < |r.participants|
  {
    && |later.participants| == |r.participants|
    && later == r.(participants := r.participants[i := later.participants[i]])
    && SameUser(r.participants[i], later.participants[i])
  }

  /** However far a turn got, the record differs at most in this participant's runtime directory and settlement. */
  predicate TurnOutcome(w: World, r: Record, i: nat, later: Record)
    requires i < |r.participants|
  {
    && |later.participants| == |r.participants|
    && later == r.(participants := r.participants[i := later.participants[i]])
    && var p, q := r.participants[i], later.participants[i];
       || q == p || q == Known(w, p)
       || (&& q == Known(w, p).(settlement := q.settlement) && !q.settlement.Pending?
           && (!Restoring(r) ==> q.settlement.Disabled?))
  }

  /** The record with participant `i` settled, as disabled unless users are being restored. */
  predicate IsSettled(r: Record, i: nat, later: Record)
    requires i < |r.participants|
  {
    && |later.participants| == |r.participants|
    && later == WithSettlement(r, i, later.participants[i].settlement)
    && !later.participants[i].settlement.Pending?
    && (!Restoring(r) ==> later.participants[i].settlement.Disabled?)
  }

  /** Recording the directory and then the settlement is a turn. */
  lemma RecordedTurn(w: World, r: Record, i: nat, known: Record, later: Record)
    requires i < |r.participants| && OnlyNoted(r, i, known)
    requires later == known || IsSettled(known, i, later)
    ensures OnlyTurned(r, i, later)
    ensures known == RuntimeKnown(w, r, i) ==> TurnOutcome(w, r, i, later)
  {
  }

  predicate SettledNext(r: Record, i: nat, later: Record)
    requires i < |r.participants|
  {
    && |later.participants| == |r.participants|
    && later == r.(participants := r.participants[i := later.participants[i]])
    && !later.participants[i].settlement.Pending? && SameChoices(r.participants, later.participants)
  }

  /** The first `i` participants are settled; the others are as they were. */
  predicate SettledUpTo(r: Record, later: Record, i: nat) {
    && i <= |later.participants| == |r.participants|
    && later == r.(participants := later.participants) && SameChoices(r.participants, later.participants)
    && (forall k :: i <= k < |r.participants| ==> later.participants[k] == r.participants[k])
    && (forall k :: 0 <= k < i ==> !later.participants[k].settlement.Pending?)
  }

  predicate RemovedUpTo(w: World, r: Record, later: Record, i: nat) {
    && i <= |later.participants| == |r.participants|
    && forall k :: 0 <= k < i ==> later.participants[k] == Removed(w, r.participants[k])
  }

  lemma SettledOneMore(w: World, w': World, r: Record, was: Record, later: Record, i: nat)
    requires SettledUpTo(r, was, i) && i < |r.participants| && SettledNext(was, i, later)
    ensures SettledUpTo(r, later, i + 1)
    ensures w'.runtime == w.runtime && RemovedUpTo(w, r, was, i)
            && later.participants[i] == Removed(w', was.participants[i]) ==>
              RemovedUpTo(w, r, later, i + 1)
  {
  }

  predicate AllSettleable(w: World, r: Record, from: nat) {
    forall i :: from <= i < |r.participants| && r.participants[i].settlement.Pending? ==> Settleable(w, r, i)
  }

  predicate AllRemoved(w: World, ps: seq<Participant>, qs: seq<Participant>) {
    |ps| == |qs| && forall i :: 0 <= i < |ps| ==> qs[i] == Removed(w, ps[i])
  }

  /** Settling one participant changes nothing for the later ones. */
  lemma LaterParticipantsUnaffected(w: World, w': World, r: Record, later: Record, i: nat)
    requires i < |r.participants| && Ascending(r.participants)
    requires OnlyUser(w, w', r.participants[i].uid) && w'.intent == w.intent
    requires i < |later.participants| && later == r.(participants := r.participants[i := later.participants[i]])
    ensures AllSettleable(w', later, i + 1) <==> AllSettleable(w, r, i + 1)
  {
    forall k | i < k < |r.participants|
      ensures Settleable(w', later, k) <==> Settleable(w, r, k)
    {
      var uid := r.participants[k].uid;
      assert uid in w'.registered - {r.participants[i].uid} <==> uid in w.registered - {r.participants[i].uid};
      assert uid in w'.ready - {r.participants[i].uid} <==> uid in w.ready - {r.participants[i].uid};
    }
  }

  /** A turn that failed half-way leaves everybody as settleable as before. */
  lemma TurnKeepsSettleable(w: World, w': World, r: Record, later: Record, i: nat)
    requires i < |r.participants| && Ascending(r.participants) && UsersInv(w) && w'.intent == w.intent
    requires r.participants[i].settlement.Pending? && UserTurn(w, w', r.participants[i], Restoring(r))
    requires TurnOutcome(w, r, i, later)
    ensures AllSettleable(w, r, 0) ==> AllSettleable(w', later, 0)
  {
    var uid := r.participants[i].uid;
    if AllSettleable(w, r, 0) {
      forall k | 0 <= k < |later.participants| && later.participants[k].settlement.Pending?
        ensures Settleable(w', later, k)
      {
        assert Settleable(w, r, k);
        if k != i {
          var other := r.participants[k].uid;
          assert other in w'.registered - {uid} <==> other in w.registered - {uid};
          assert other in w'.ready - {uid} <==> other in w.ready - {uid};
        }
      }
    }
  }

  lemma TurnKeepsReceipt(w: World, w': World, r: Record, later: Record, i: nat)
    requires i < |r.participants| && r.participants[i].settlement.Pending? && !Restoring(r)
    requires w'.runtime == w.runtime && w'.removal == w.removal && TurnOutcome(w, r, i, later)
    ensures RemovalReceiptFits(w, r) ==> RemovalReceiptFits(w', later)
  {
    assert forall k :: 0 <= k < |r.participants| ==>
                         Removed(w', later.participants[k]) == Removed(w, r.participants[k]);
  }

  predicate RemovalReceiptFits(w: World, r: Record) {
    w.removal.Some? ==>
      && w.removal.value.producer == r.generation && w.removal.value.removedVersion == r.targetVersion
      && |w.removal.value.participants| == |r.participants|
      && forall i :: 0 <= i < |r.participants| ==> w.removal.value.participants[i] == Removed(w, r.participants[i])
  }

  /** Whether one user can be stopped when nothing fails. */
  predicate Stoppable(w: World, p: Participant, recordRuntimes: bool) {
    if recordRuntimes then Reachable(w, p) else DirectoriesValid(w, p)
  }

  predicate AllStoppable(w: World, r: Record, recordRuntimes: bool) {
    forall i :: 0 <= i < |r.participants| ==> Stoppable(w, r.participants[i], recordRuntimes)
  }

  /** One user has been stopped: nothing registered, nothing enabled, and the directories are known. */
  predicate Halted(w: World, w': World, p: Participant, later: Participant, recordRuntimes: bool) {
    && Stoppable(w, p, recordRuntimes) && DirectoriesValid(w', later)
    && later.uid !in w'.enabled && later.uid !in w'.registered
  }

  /** Stopping users touches nothing but their managers and registrations, and the record. */
  predicate OnlyStopped(w: World, w': World) {
    && SameFiles(w, w') && SameSessions(w, w')
    && w'.enabled <= w.enabled && w'.registered <= w.registered
  }

  /** The participant, or it with a runtime directory newly recorded. */
  predicate Noted(p: Participant, q: Participant) {
    q == p || (p.runtimeDevice.None? && q.runtimeDevice.Some? && q.runtimeInode.Some?
               && q == p.(runtimeDevice := q.runtimeDevice, runtimeInode := q.runtimeInode))
  }

  /** Nothing of the record differs but, at most, a runtime directory newly recorded for this participant. */
  predicate OnlyNoted(r: Record, i: nat, later: Record)
    requires i < |r.participants|
  {
    && |later.participants| == |r.participants|
    && later == r.(participants := r.participants[i := later.participants[i]])
    && Noted(r.participants[i], later.participants[i])
  }

  /** The first `i` users of `r` are neither enabled nor registered; only runtime directories were recorded. */
  predicate QuietUpTo(w: World, w': World, r: Record, later: Record, i: nat) {
    && i <= |later.participants| == |r.participants|
    && Calmed(w, w') && DoorShut(w') && later.phase.IntentRecorded? && Advanced(r, later)
    && (forall k :: i <= k < |r.participants| ==> later.participants[k] == r.participants[k])
    && forall k :: 0 <= k < i ==>
         later.participants[k].uid !in w'.enabled && later.participants[k].uid !in w'.registered
  }

  lemma QuietNext(w: World, w1: World, w2: World, r: Record, later: Record, next: Record, i: nat)
    requires QuietUpTo(w, w1, r, later, i) && i < |r.participants| && Calmed(w1, w2) && OnlyNoted(later, i, next)
    ensures Calmed(w, w2) && DoorShut(w2) && Advanced(r, next) && next.phase.IntentRecorded?
    ensures next.participants[i].uid !in w2.enabled && next.participants[i].uid !in w2.registered ==>
              QuietUpTo(w, w2, r, next, i + 1)
  {
  }

  /** The first `i` users of `r` are stopped; the rest is as it was. */
  predicate StoppedUpTo(w: World, w': World, r: Record, later: Record, i: nat, recordRuntimes: bool) {
    && i <= |later.participants| == |r.participants|
    && OnlyStopped(w, w') && later.phase.IntentRecorded? && Advancing(w, r, later)
    && (forall k :: i <= k < |r.participants| ==> later.participants[k] == r.participants[k])
    && (forall k :: 0 <= k < i ==> Halted(w, w', r.participants[k], later.participants[k], recordRuntimes))
  }

  lemma StoppedNext(w: World, w1: World, w2: World, r: Record, later: Record, next: Record, i: nat,
                    recordRuntimes: bool)
    requires StoppedUpTo(w, w1, r, later, i, recordRuntimes) && i < |r.participants|
    requires OnlyStopped(w1, w2) && (next == later || next == RuntimeKnown(w1, later, i))
    ensures OnlyStopped(w, w2) && Advancing(w, r, next) && next.phase.IntentRecorded?
    ensures Halted(w1, w2, later.participants[i], next.participants[i], recordRuntimes) ==>
              StoppedUpTo(w, w2, r, next, i + 1, recordRuntimes)
  {
  }

  /** Once the users are recorded as stopped, their directories are known. */
  predicate StopsVerified(w: World, r: Record, later: Record) {
    r.phase.IntentRecorded? && later.phase.PublishersStopped? ==> AllStoppable(w, later, false)
  }

  /** A pending intent serves any later request for the same operation. */
  predicate Announces(i: QuiesceIntent, kind: Kind, source: Version, target: Version) {
    i.kind == kind && i.sourceVersion == source && i.targetVersion == target
  }

  function NewIntent(kind: Kind, source: Version, target: Version, uuid: Generation): QuiesceIntent {
    QuiesceIntent(uuid, kind, source, target, None)
  }

  function Announced(w: World, i: QuiesceIntent): World {
    w.(intent := Some(i), past := Issue(w.past, i.generation, i.kind))
  }

  function WithController(w: World, g: Generation): World {
    w.(controllers := w.controllers + {g})
  }

  /** A new record on disk; a generation that no intent announced is issued with it. */
  function Created(w: World, r: Record): World {
    if w.intent.Some? && w.intent.value.generation == r.generation then w.(record := Some(r))
    else w.(record := Some(r), past := Issue(w.past, r.generation, r.kind))
  }

  function Kept(w: World, r: Record, isNew: bool): World {
    if isNew then Created(w, r) else w
  }

  /** Preparing touches no file but the record and the controller of its generation, and only ever disables users. */
  predicate PrepareFrame(w: World, w': World, g: Generation) {
    && w'.intent == w.intent && w'.removal == w.removal && w'.install == w.install
    && w'.quarantines == w.quarantines && w'.strays == w.strays && w.acks.Keys <= w'.acks.Keys
    && (w'.controllers == w.controllers || w'.controllers == w.controllers + {g})
    && w'.enabled <= w.enabled && w'.registered <= w.registered
  }

  /** However far preparing got, the record differs at most in its phase and in runtime directories newly recorded. */
  predicate Advanced(r: Record, later: Record) {
    && later == r.(phase := later.phase, participants := later.participants)
    && (later.phase == r.phase || (r.phase.IntentRecorded? && later.phase.PublishersStopped?))
    && (r.phase.IntentRecorded? || later == r)
    && |later.participants| == |r.participants|
    && forall i :: 0 <= i < |r.participants| ==> Noted(r.participants[i], later.participants[i])
  }

  /** The same, the directories recorded being those mounted in `w`. */
  predicate Advancing(w: World, r: Record, later: Record) {
    && later == r.(phase := later.phase, participants := later.participants)
    && (later.phase == r.phase || (r.phase.IntentRecorded? && later.phase.PublishersStopped?))
    && (r.phase.IntentRecorded? || later == r)
    && |later.participants| == |r.participants|
    && forall i :: 0 <= i < |r.participants| ==>
         later.participants[i] == r.participants[i] || later.participants[i] == Known(w, r.participants[i])
  }

  /** `later` is `r` with everybody stopped; a record already past that is left as it was. */
  predicate Prepared(r: Record, later: Record) {
    if r.phase.IntentRecorded? then
      && later == r.(phase := PublishersStopped, participants := later.participants)
      && SameChoices(r.participants, later.participants)
    else later == r
  }

  /** The record is the forward operation that the intent announced. */
  predicate Carries(r: Record, intent: QuiesceIntent) {
    && Validate(r, intent.kind, intent.targetVersion)
    && r.disposition.Forward? && r.generation == intent.generation && r.sourceVersion == intent.sourceVersion
  }

  /** The state can be prepared without an intent when nothing fails. */
  predicate Resumable(w: World, kind: Kind, target: Version) {
    if w.record.Some? then
      && Validate(w.record.value, kind, target) && w.record.value.disposition.Forward?
      && (w.record.value.phase.IntentRecorded? ==> AllStoppable(w, w.record.value, false))
    else Discoverable(w)
  }

  /** The operation on record is one that no intent of an upgrade or a removal can carry any further. */
  predicate Closed(w: World) {
    w.record.Some? && (w.record.value.disposition.Rollback? || w.record.value.kind.Purge?)
  }

  /** The state can be prepared for this intent when nothing fails. */
  predicate Preparable(w: World, intent: QuiesceIntent) {
    if w.record.Some? then
      && Carries(w.record.value, intent)
      && (w.record.value.phase.IntentRecorded? ==> AllStoppable(w, w.record.value, true))
    else Discoverable(w)
  }

  /** The operation can be announced and prepared when nothing fails: it resumes its own intent, or starts afresh. */
  predicate Announceable(w: World, kind: Kind, source: Version, target: Version) {
    && ValidVersion(source) && ValidVersion(target)
    && if w.intent.Some? then Announces(w.intent.value, kind, source, target) && Preparable(w, w.intent.value)
       else w.record.None? && Discoverable(w)
  }

  /** The state once an intent is pending: the one found, or else a new one. */
  function Ensured(w: World, kind: Kind, source: Version, target: Version, uuid: Generation): (w': World)
    ensures w'.intent.Some?
  {
    if w.intent.Some? then w else Announced(w, NewIntent(kind, source, target, uuid))
  }

  /** Announcing decides nothing: the operation can be prepared under the pending intent exactly if it could before. */
  lemma EnsuredPreparable(w: World, kind: Kind, source: Version, target: Version, uuid: Generation)
    requires Inv(w) && uuid !in w.past.issued
    ensures ValidVersion(source) && ValidVersion(target) ==>
            var w' := Ensured(w, kind, source, target, uuid);
            && (Announceable(w, kind, source, target) <==>
                Announces(w'.intent.value, kind, source, target) && Preparable(w', w'.intent.value))
            && (Announceable(w', kind, source, target) <==> Announceable(w, kind, source, target))
            && (w.record.Some? && (w.intent.None? || Closed(w)) ==> !Carries(w.record.value, w'.intent.value))
  {
  }

  /**
   * Preparing while any record is there and no intent is pending announces an operation that the record cannot carry:
   * it fails and leaves the new intent behind, even if the record is the same operation, prepared before.
   */
  predicate LeavesIntent(w: World, source: Version, target: Version) {
    w.record.Some? && w.intent.None? && ValidVersion(source) && ValidVersion(target)
  }

  /** The same operation, still settling. */
  predicate SameSettling(r: Record, later: Record) {
    later == r.(participants := later.participants)
  }

  /** The same operation, its users stopped at least. */
  predicate SameFinishing(r: Record, later: Record) {
    later == r.(phase := later.phase, participants := later.participants) && !later.phase.IntentRecorded?
  }

  lemma DiscoveredStoppable(w: World, r: Record)
    requires IsDiscovery(w, r.participants) && Discoverable(w)
    ensures AllStoppable(w, r, true) && AllStoppable(w, r, false)
  {
    forall i | 0 <= i < |r.participants|
      ensures Stoppable(w, r.participants[i], true) && Stoppable(w, r.participants[i], false)
    {
      assert r.participants[i] in r.participants;
    }
  }

  /** Preparing that was cut short can be taken up again. */
  lemma PreparingKeepsPreparable(w: World, w': World, r: Record, intent: QuiesceIntent)
    requires Carries(r, intent) && Inv(w') && PrepareFrame(w, w', r.generation) && SameSessions(w, w')
    requires w'.record.Some? && Advancing(w, r, w'.record.value)
    requires r.phase.IntentRecorded? ==> AllStoppable(w, r, true)
    ensures Preparable(w', intent)
  {
    var later := w'.record.value;
    if later.phase.IntentRecorded? {
      forall i | 0 <= i < |later.participants|
        ensures Stoppable(w', later.participants[i], true)
      {
        assert Stoppable(w, r.participants[i], true);
      }
    }
  }

  /** The operation an intent announced is prepared and the intent withdrawn. */
  predicate Withdrawn(w: World, kind: Kind, source: Version, target: Version) {
    && w.intent.None? && w.record.Some? && Validate(w.record.value, kind, target)
    && w.record.value.sourceVersion == source && w.record.value.disposition.Forward?
    && !w.record.value.phase.IntentRecorded? && w.record.value.generation in w.controllers
  }

  /** The intent, if any, is that of a plain removal of this version. */
  predicate RemovalIntent(w: World, target: Version) {
    w.intent.Some? ==>
      w.intent.value.kind.Remove? && w.intent.value.sourceVersion == target && w.intent.value.targetVersion == target
      && w.intent.value.bootstrap.None?
  }

  /** The record is a removal of this version that may be turned back, and no other operation is announced. */
  predicate MayRollBack(w: World, r: Record, target: Version) {
    && Validate(r, Remove, target) && r.sourceVersion == target
    && (w.intent.Some? ==> w.intent.value.generation == r.generation)
    && (w.removal.Some? ==> w.removal.value.producer != r.generation)
    && (r.disposition.Forward? ==> r.phase.IntentRecorded? || r.phase.PublishersStopped?)
  }

  /**
   * Every pending user can be restored: the runtime directory is known or can be recorded, and no user whose provider
   * is recorded as disabled still has a registration, for a rollback never stops such a provider.
   */
  predicate UsersRestorable(w: World, r: Record) {
    forall i :: 0 <= i < |r.participants| && r.participants[i].settlement.Pending? ==>
      Reachable(w, r.participants[i]) && (r.participants[i].uid in w.registered ==> r.participants[i].enabled)
  }

  predicate Abortable(w: World, target: Version) {
    && ValidVersion(target) && RemovalIntent(w, target)
    && (w.record.Some? ==>
          && MayRollBack(w, w.record.value, target)
          && (!w.record.value.phase.Finalizing? ==> UsersRestorable(w, w.record.value)))
  }

  /** A removal requested now can be turned back however far its preparation gets. */
  predicate MayBeTurnedBack(w: World, target: Version) {
    w.record.None? && w.intent.None? && ValidVersion(target) && NoDisabledProvider(w)
  }

  /** No user who has acknowledged the provider as disabled has a registration. */
  predicate NoDisabledProvider(w: World) {
    forall uid :: uid in w.acks && uid in w.registered ==> w.acks[uid].enabled
  }

  /** The record that preparing an announced operation begins with, or has advanced to, over the users found. */
  predicate Begun(w: World, intent: QuiesceIntent, r: Record) {
    && Carries(r, intent) && (r.phase.IntentRecorded? || r.phase.PublishersStopped?)
    && forall i :: 0 <= i < |r.participants| ==>
         && r.participants[i].uid in w.acks && r.participants[i].enabled == w.acks[r.participants[i].uid].enabled
         && Reachable(w, r.participants[i])
  }

  /** Everybody who had acknowledged when preparing began is on record. */
  predicate ListsAll(w: World, r: Record) {
    forall uid :: uid in w.acks ==> exists i :: 0 <= i < |r.participants| && r.participants[i].uid == uid
  }

  lemma DiscoveredListsAll(w: World, r: Record, later: Record)
    requires IsDiscovery(w, r.participants) && Advanced(r, later)
    ensures ListsAll(w, later)
  {
    forall uid | uid in w.acks
      ensures exists i :: 0 <= i < |later.participants| && later.participants[i].uid == uid
    {
      assert Joined(w, uid) in r.participants;
      var i :| 0 <= i < |r.participants| && r.participants[i] == Joined(w, uid);
      assert later.participants[i].uid == uid;
    }
  }

  /** What preparing an announced operation comes to, whether its record is new or was there. */
  lemma PreparedFromIntent(w: World, w': World, r: Record, intent: QuiesceIntent, isNew: bool)
    requires Inv(w') && w'.record.Some? && Carries(r, intent) && Advanced(r, w'.record.value)
    requires PrepareFrame(w, w', r.generation)
    requires if isNew then
               w.record.None? && Discoverable(w) && IsDiscovery(w, r.participants) && r.phase.IntentRecorded?
             else w.record == Some(r)
    ensures SameSessions(w, w') && Advancing(w, r, w'.record.value) && Preparable(w, intent) ==> Preparable(w', intent)
    ensures isNew ==> Begun(w, intent, w'.record.value) && ListsAll(w, w'.record.value)
  {
    if isNew {
      DiscoveredStoppable(w, r);
      DiscoveredBegun(w, intent, r, w'.record.value);
      DiscoveredListsAll(w, r, w'.record.value);
    }
    if SameSessions(w, w') && Advancing(w, r, w'.record.value) && Preparable(w, intent) {
      PreparingKeepsPreparable(w, w', r, intent);
    }
  }

  /** Once its users are recorded as stopped, everybody listed is. */
  lemma ListedAreQuiet(w: World, w': World)
    requires Inv(w') && w'.record.Some? && ListsAll(w, w'.record.value) && QuietPhase(w'.record.value)
    ensures forall uid :: uid in w.acks ==> uid !in w'.enabled && uid !in w'.registered
  {
  }

  lemma DiscoveredBegun(w: World, intent: QuiesceIntent, r: Record, later: Record)
    requires IsDiscovery(w, r.participants) && Discoverable(w) && Advanced(r, later)
    requires r.phase.IntentRecorded? && Carries(later, intent)
    ensures Begun(w, intent, later)
  {
    DiscoveredStoppable(w, r);
    forall i | 0 <= i < |later.participants|
      ensures later.participants[i].uid in w.acks && Reachable(w, later.participants[i])
      ensures later.participants[i].enabled == w.acks[later.participants[i].uid].enabled
    {
      assert r.participants[i] in r.participants && Stoppable(w, r.participants[i], true);
    }
  }

  /** Preparing changes nothing else than record, intent and controller, and only stops and disables users. */
  predicate OnlyPrepared(w: World, w': World) {
    w'.removal == w.removal && SameSessions(w, w') && w'.registered <= w.registered
  }

  /** The announced removal, once begun, can be turned back. */
  predicate TurnsBack(w: World, intent: QuiesceIntent) {
    && intent.kind.Remove? && intent.bootstrap.None?
    && intent.sourceVersion == intent.targetVersion && ValidVersion(intent.targetVersion)
    && w.record.None? && NoDisabledProvider(w)
    && (w.removal.Some? ==> w.removal.value.producer != intent.generation)
  }

  /** A removal that may be turned back can be turned back before it is announced, just after, and while it begins. */
  lemma EnsuredTurnsBack(w: World, target: Version, uuid: Generation)
    requires Inv(w) && uuid !in w.past.issued
    ensures var w' := Ensured(w, Remove, target, target, uuid);
            MayBeTurnedBack(w, target) ==>
              Abortable(w, target) && Abortable(w', target) && TurnsBack(w', w'.intent.value)
  {
  }

  /** Nothing but this operation is announced or on record. */
  predicate AtMostBegun(w: World, intent: QuiesceIntent, w': World) {
    && (w'.intent.None? || w'.intent == Some(intent))
    && (w'.record.Some? ==> Begun(w, intent, w'.record.value))
  }

  /** A removal being prepared can be turned back whatever became of it. */
  lemma BegunRemovalAbortable(w: World, w': World, intent: QuiesceIntent)
    requires Inv(w') && TurnsBack(w, intent) && OnlyPrepared(w, w')
    requires AtMostBegun(w, intent, w')
    ensures Abortable(w', intent.targetVersion)
  {
  }

  /** An older install receipt does not stand against a reinstall of this version. */
  predicate InstallReceiptFits(w: World, r: Record) {
    r.kind.Reinstall? && w.install.Some? && w.install.value.installGeneration != r.generation ==>
      w.install.value.installedVersion == r.sourceVersion
  }

  predicate SettlingFinishable(w: World, r: Record) {
    && AllSettleable(w, r, 0)
    && (!Restoring(r) ==> RemovalReceiptFits(w, r))
    && InstallReceiptFits(w, r)
  }

  /** The state can be finished when nothing fails. */
  predicate Finishable(w: World, kind: Kind, target: Version) {
    && w.record.Some? && Validate(w.record.value, kind, target) && !w.record.value.phase.IntentRecorded?
    && (!w.record.value.phase.Finalizing? ==> SettlingFinishable(w, w.record.value))
  }

  lemma TurnKeepsFinishable(w: World, w': World, r: Record, later: Record, i: nat)
    requires i < |r.participants| && Ascending(r.participants) && UsersInv(w) && SameFiles(w, w')
    requires r.participants[i].settlement.Pending? && UserTurn(w, w', r.participants[i], Restoring(r))
    requires TurnOutcome(w, r, i, later)
    ensures SettlingFinishable(w, r) ==> SettlingFinishable(w', later)
  {
    TurnKeepsSettleable(w, w', r, later, i);
    if !Restoring(r) {
      TurnKeepsReceipt(w, w', r, later, i);
    }
  }

  /** The receipts an operation writes fit its own record. */
  lemma ReceiptKeepsFinishable(w: World, r: Record)
    requires NonePending(r.participants)
    ensures SettlingFinishable(WithRemoval(w, r), r)  <==> SettlingFinishable(w.(removal := None), r)
    ensures r.predecessor.Some? && SettlingFinishable(w, r) ==>
              SettlingFinishable(w.(install := Some(ExactInstall(r))), r)
    ensures SettlingFinishable(w, r) ==> SettlingFinishable(WithRemoval(w, r), r)
  {
  }

  /** A removal on record that can be carried on to its receipt, from whatever point it had reached. */
  predicate RemovalCompletable(w: World, r: Record) {
    && r.disposition.Forward?
    && if r.phase.IntentRecorded? then AllStoppable(w, r, false) && RemovalReceiptFits(w, r)
       else Finishable(w, Remove, r.targetVersion)
  }

  /** Once a removal's users are stopped, it can be finished exactly if its receipt is free or fits. */
  lemma StoppedRemovalFinishable(w: World, r: Record)
    requires Inv(w) && w.record == Some(r) && r.kind.Remove? && r.disposition.Forward? && r.phase.PublishersStopped?
    requires AllStoppable(w, r, false)
    ensures Finishable(w, Remove, r.targetVersion) <==> RemovalReceiptFits(w, r)
  {
    forall i | 0 <= i < |r.participants|
      ensures Settleable(w, r, i)
    {
      assert Stoppable(w, r.participants[i], false);
    }
  }

  /** Stopping a removal's users, however far it gets, leaves it as completable as before. */
  lemma StoppingKeepsCompletable(w: World, w': World, r: Record)
    requires Inv(w) && Inv(w') && w.record == Some(r) && r.kind.Remove? && r.disposition.Forward?
    requires PrepareFrame(w, w', r.generation) && SameSessions(w, w') && w'.record.Some?
    requires Advancing(w, r, w'.record.value) && StopsVerified(w', r, w'.record.value)
    ensures RemovalCompletable(w, r) ==> RemovalCompletable(w', w'.record.value)
    ensures r.phase.IntentRecorded? && w'.record.value.phase.PublishersStopped? && AllStoppable(w, r, false) ==>
              (RemovalCompletable(w', w'.record.value) <==> RemovalReceiptFits(w, r))
  {
    var later := w'.record.value;
    if r.phase.IntentRecorded? {
      assert forall k :: 0 <= k < |r.participants| ==>
                         Removed(w', later.participants[k]) == Removed(w, r.participants[k]);
      assert RemovalReceiptFits(w', later) <==> RemovalReceiptFits(w, r);
      if later.phase.PublishersStopped? {
        StoppedRemovalFinishable(w', later);
      } else if AllStoppable(w, r, false) {
        assert forall k :: 0 <= k < |r.participants| ==> Stoppable(w, r.participants[k], false);
        assert AllStoppable(w', later, false);
      }
    } else {
      QuietUsersKeepFinishable(w, w', r);
    }
  }

  /** Nothing but the controller file changes for a record whose users are stopped already. */
  lemma QuietUsersKeepFinishable(w: World, w': World, r: Record)
    requires Inv(w) && w.record == Some(r) && w'.record == Some(r) && r.kind.Remove? && r.disposition.Forward?
    requires PrepareFrame(w, w', r.generation) && SameSessions(w, w')
    ensures Finishable(w, Remove, r.targetVersion) ==> Finishable(w', Remove, r.targetVersion)
  {
    if Finishable(w, Remove, r.targetVersion) && !r.phase.Finalizing? {
      forall i | 0 <= i < |r.participants| && r.participants[i].settlement.Pending?
        ensures Settleable(w', r, i)
      {
        assert Settleable(w, r, i);
      }
      assert forall k :: 0 <= k < |r.participants| ==> Removed(w', r.participants[k]) == Removed(w, r.participants[k]);
    }
  }

  lemma PhaseDoesNotMatter(w: World, w': World, r: Record, later: Record)
    requires w' == w.(record := w'.record) && later == r.(phase := later.phase)
    ensures SettlingFinishable(w', later) <==> SettlingFinishable(w, r)
  {
    assert forall i :: 0 <= i < |r.participants| ==> (Settleable(w', later, i) <==> Settleable(w, r, i));
    assert RemovalReceiptFits(w', later) <==> RemovalReceiptFits(w, r);
  }

  lemma ExactRemovalFits(w: World, w': World, r: Record, later: Record)
    requires AllRemoved(w, r.participants, later.participants) && w'.removal == w.removal
    requires later == r.(participants := later.participants)
    ensures RemovalReceiptFits(w, r) <==> (w'.removal.None? || w'.removal == Some(ExactRemoval(later)))
  {
    if RemovalReceiptFits(w, r) && w.removal.Some? {
      assert w.removal.value.participants == later.participants;
    }
  }

  /** The receipt without which the operation may not be finalized. */
  predicate ReceiptOwed(w: World, r: Record) {
    && (r.kind.Remove? && r.disposition.Forward? ==> w.removal == Some(ExactRemoval(r)))
    && (r.kind.Reinstall? ==> r.predecessor.Some? && w.install == Some(ExactInstall(r)))
  }

  /** Settling touches no file but the record and the one receipt the operation owes. */
  predicate FinishFrame(w: World, w': World, r: Record) {
    && w'.intent == w.intent && w'.strays == w.strays && w'.quarantines == w.quarantines
    && w'.controllers == w.controllers && w'.past.issued == w.past.issued
    && (!r.kind.Reinstall? ==> w'.install == w.install)
    && (!r.kind.Remove? || r.disposition.Rollback? ==> w'.removal == w.removal)
  }

  function WithRemoval(w: World, r: Record): World {
    w.(removal := Some(ExactRemoval(r)), past := w.past.(receipted := w.past.receipted + {r.generation}))
  }

  function ControllerGone(w: World, r: Record): World {
    w.(controllers := w.controllers - {r.generation})
  }

  function Cleared(w: World, r: Record): World {
    var retired := if Restoring(r) then ControllerGone(w, r) else w;
    retired.(removal := if r.kind.Reinstall? then None else w.removal, record := None)
  }

  /** What completing the record `r` leaves behind. */
  predicate Completed(w: World, w': World, r: Record) {
    && w'.record.None? && w'.past.issued == w.past.issued
    && w'.intent == w.intent && w'.strays == w.strays && w'.quarantines == w.quarantines
    && (if Restoring(r) then
          && w'.controllers == w.controllers - {r.generation}
          && forall i :: 0 <= i < |r.participants| ==> ChoiceHeld(w', r.participants[i])
        else
          && w'.controllers == w.controllers && w'.install == w.install
          && w'.removal.Some? && w'.removal.value.producer == r.generation
          && w'.removal.value.removedVersion == r.targetVersion
          && SameChoices(r.participants, w'.removal.value.participants) && AllDisabled(w'.removal.value.participants)
          && forall i :: 0 <= i < |r.participants| ==>
               r.participants[i].uid !in w'.enabled && r.participants[i].uid !in w'.registered)
    && (r.kind.Reinstall? ==>
          && w'.removal.None? && w'.install.Some? && r.predecessor.Some?
          && w'.install.value.installGeneration == r.generation
          && w'.install.value.predecessor == r.predecessor.value
          && w'.install.value.installedVersion == r.targetVersion
          && SameChoices(r.participants, w'.install.value.participants))
    && (r.kind.Upgrade? || r.disposition.Rollback? ==> w'.removal == w.removal && w'.install == w.install)
  }

  lemma ClearedIsCompleted(w: World, r: Record)
    requires Inv(w) && w.record == Some(r) && r.phase.Finalizing? && !r.kind.Purge?
    ensures Completed(w, Cleared(w, r), r)
  {
  }

  /** Clearing the final record completes the operation it began as. */
  lemma FinalizedIsCompleted(w: World, w': World, r: Record, later: Record)
    requires Inv(w') && w'.record == Some(later) && !r.kind.Purge? && FinishFrame(w, w', r)
    requires later == r.(phase := Finalizing, participants := later.participants)
    requires SameChoices(r.participants, later.participants)
    ensures Completed(w, Cleared(w', later), r)
  {
    ClearedIsCompleted(w', later);
    forall i | 0 <= i < |r.participants| && Restoring(r)
      ensures ChoiceHeld(Cleared(w', later), r.participants[i])
    {
      assert ChoiceHeld(Cleared(w', later), later.participants[i]);
    }
    assert !Restoring(r) ==> QuietUsers(w', later.participants);
  }
}
