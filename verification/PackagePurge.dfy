/** Purging: forgets a removal, finished or not, and everything recorded about its users. */
module PackagePurge {
  import opened Wrappers
  import opened Text
  import opened PackageTypes
  import opened PackageWorld
  import opened PackageInvariant
  import opened PackageConditions
  import opened PackageControl
  import opened PackageActions

  /** The record a purge takes over or writes for itself, before its kind is changed. */
  function ReceiptRecord(receipt: RemovalReceipt): Record {
    Record(Forward, receipt.producer, Remove, Finalizing, receipt.removedVersion, receipt.removedVersion, None,
           receipt.participants)
  }

  predicate PurgeableIntent(w: World, target: Version) {
    w.intent.Some? ==> w.intent.value.kind.Remove? && w.intent.value.targetVersion == target
  }

  predicate PurgeableReceipt(w: World, target: Version) {
    w.removal.Some? ==> w.removal.value.removedVersion == target && AllDisabled(w.removal.value.participants)
  }

  predicate PurgeableRecord(w: World, r: Record, target: Version) {
    && r.disposition.Forward? && (r.kind.Remove? || r.kind.Purge?) && Validate(r, r.kind, target)
    && (w.removal.Some? ==>
          w.removal.value.producer == r.generation && w.removal.value.participants == r.participants)
  }

  predicate IntentAgrees(w: World, r: Record) {
    w.intent.Some? ==>
      r.generation == w.intent.value.generation && r.sourceVersion == w.intent.value.sourceVersion
  }

  /** The removal on disk is one that a purge of this version accepts. */
  predicate PurgeAccepted(w: World, target: Version) {
    && ValidVersion(target) && PurgeableIntent(w, target) && PurgeableReceipt(w, target)
    && (w.record.Some? ==> PurgeableRecord(w, w.record.value, target) && IntentAgrees(w, w.record.value))
    && (w.record.None? && w.removal.Some? ==> IntentAgrees(w, ReceiptRecord(w.removal.value)))
  }

  /** The users can be stopped and checked when nothing fails. */
  predicate UsersStoppable(w: World, r: Record) {
    && (r.phase.IntentRecorded? ==> AllStoppable(w, r, true))
    && (r.phase.PublishersStopped? || r.phase.Settling? ==> AllStoppable(w, r, false))
  }

  function PurgeGeneration(w: World): Option<Generation> {
    if w.record.Some? then Some(w.record.value.generation)
    else if w.removal.Some? then Some(w.removal.value.producer)
    else if w.intent.Some? then Some(w.intent.value.generation)
    else None
  }

  /** At most one controller is there, and it belongs to the removal being purged. */
  predicate OwnController(w: World) {
    match PurgeGeneration(w)
    case Some(g) => w.controllers <= {g}
    case None => |w.controllers| <= 1
  }

  /**
   * The states from which a purge ends: an accepted removal, or nothing but a controller, and nothing unknown in the
   * package root. An install receipt alone belongs to an installed package and is refused.
   */
  predicate Purgeable(w: World, target: Version) {
    && PurgeAccepted(w, target)
    && w.strays == {} && w.quarantines == {} && OwnController(w)
    && (w.record.Some? ==> UsersStoppable(w, w.record.value))
    && (w.record.None? && w.removal.None? ==> if w.intent.Some? then Discoverable(w) else w.install.None?)
  }

  predicate Purged(w: World) {
    NothingLeft(w) && w.controllers == {} && w.acks == map[]
  }

  /** The package root holds nothing that a purge does not know. */
  predicate RootKnown(w: World, r: Option<Record>) {
    && w.intent.None? && w.strays == {} && w.quarantines == {}
    && (r.None? ==> w.record.None? && w.removal.None? && w.install.None?)
    && (r.Some? ==> w.controllers <= {r.value.generation})
    && |w.controllers| <= 1
  }

  /** A purge cut short once it has begun to delete: receipts go before the record, the record before the controller. */
  predicate Remnant(w: World, w': World) {
    && w' == w.(acks := w'.acks, install := w'.install, removal := w'.removal, record := w'.record,
                controllers := w'.controllers)
    && (w'.install == w.install || w'.install.None?)
    && (w'.removal == w.removal || w'.removal.None?)
    && (w'.record == w.record || (w'.record.None? && w'.removal.None? && w'.install.None?))
    && w'.controllers <= w.controllers
  }

  lemma {:induction false} SubsetIsSmaller<T>(small: set<T>, large: set<T>)
    requires small <= large
    ensures |small| <= |large|
  {
    if small != {} {
      var x :| x in small;
      SubsetIsSmaller(small - {x}, large - {x});
    }
  }

  /** Whatever a purge has deleted so far, the same purge can still be run to its end. */
  lemma RemnantStaysPurgeable(w: World, w': World, r: Option<Record>, target: Version)
    requires Purgeable(w, target) && RootKnown(w, r) && Remnant(w, w')
    requires if r.Some? then w.record == r && Purging(w) else w.record.None?
    ensures Purgeable(w', target)
  {
    SubsetIsSmaller(w'.controllers, w.controllers);
  }

  method ForgetUsers(store: PackageStore) returns (o: Outcome<PackageError>)
    requires store.Valid() && store.exclusiveController && (Purging(store.disk) || NothingLeft(store.disk))
    modifies store
    ensures store.Valid() && store.Grew()
    ensures store.disk == old(store.disk).(acks := store.disk.acks)
    ensures o.Pass? ==> store.disk.acks == map[]
    ensures !store.faulty ==> o.Pass?
  {
    var rest := store.disk.acks.Keys;
    while rest != {}
      invariant store.Valid() && store.Grew()
      invariant store.disk == old(store.disk).(acks := store.disk.acks)
      invariant store.disk.acks.Keys <= rest
      decreases rest
    {
      var uid :| uid in rest;
      :- store.Commit(AckPurged(uid), store.disk.(acks := store.disk.acks - {uid}));
      rest := rest - {uid};
    }
    o := Pass;
  }

  method ForgetReceipts(store: PackageStore) returns (o: Outcome<PackageError>)
    requires store.Valid() && store.exclusiveController && Purging(store.disk) && store.disk.acks == map[]
    modifies store
    ensures store.Valid() && store.Grew()
    ensures store.disk == old(store.disk).(install := store.disk.install, removal := store.disk.removal)
    ensures store.disk.install == old(store.disk).install || store.disk.install.None?
    ensures store.disk.removal == old(store.disk).removal || store.disk.removal.None?
    ensures o.Pass? ==> store.disk.install.None? && store.disk.removal.None?
    ensures !store.faulty ==> o.Pass?
  {
    if store.disk.install.Some? {
      :- store.Commit(InstallPurged, store.disk.(install := None));
    }
    if store.disk.removal.Some? {
      :- store.Commit(RemovalPurged, store.disk.(removal := None));
    }
    o := Pass;
  }

  method ForgetControllers(store: PackageStore) returns (o: Outcome<PackageError>)
    requires store.Valid() && store.exclusiveController && NothingLeft(store.disk)
    modifies store
    ensures store.Valid() && store.Grew()
    ensures store.disk == old(store.disk).(controllers := store.disk.controllers)
    ensures store.disk.controllers <= old(store.disk).controllers
    ensures o.Pass? ==> store.disk.controllers == {}
    ensures !store.faulty ==> o.Pass?
  {
    while store.disk.controllers != {}
      invariant store.Valid() && store.Grew()
      invariant store.disk == old(store.disk).(controllers := store.disk.controllers)
      invariant store.disk.controllers <= old(store.disk).controllers
      decreases store.disk.controllers
    {
      var g :| g in store.disk.controllers;
      :- store.Commit(ControllerPurged(g), store.disk.(controllers := store.disk.controllers - {g}));
    }
    o := Pass;
  }

  /**
   * Deletes what is left of a settled removal, the controller last. An entry it does not know stops it before it has
   * deleted anything.
   */
  method PurgeSettledState(store: PackageStore, r: Option<Record>) returns (o: Outcome<PackageError>)
    requires store.Valid() && store.exclusiveController
    requires if r.Some? then store.disk.record == r && Purging(store.disk) else store.disk.record.None?
    modifies store
    ensures store.Valid() && store.Grew()
    ensures !RootKnown(old(store.disk), r) ==> o.Fail? && store.disk == old(store.disk)
    ensures o.Pass? ==> Purged(store.disk)
    ensures !store.faulty ==> (o.Pass? <==> RootKnown(old(store.disk), r))
    ensures RootKnown(old(store.disk), r) ==> Remnant(old(store.disk), store.disk)
  {
    if !RootKnown(store.disk, r) {
      return Fail(Conflict);
    }
    :- ForgetUsers(store);
    if r.Some? {
      :- ForgetReceipts(store);
      :- store.Commit(RecordCleared, store.disk.(record := None));
    }
    o := ForgetControllers(store);
  }

  function PurgeIntent(r: Record): QuiesceIntent {
    QuiesceIntent(r.generation, Purge, r.sourceVersion, r.targetVersion, None)
  }

  function IntentRecord(i: QuiesceIntent, ps: seq<Participant>): Record {
    Record(Forward, i.generation, Remove, IntentRecorded, i.sourceVersion, i.targetVersion, None, ps)
  }

  /** The record a purge goes on with: the one on disk, or one made from the receipt or from the intent. */
  ghost predicate PurgeRecord(w: World, r: Option<Record>) {
    if w.record.Some? then r == w.record
    else if w.removal.Some? then r == Some(ReceiptRecord(w.removal.value))
    else if w.intent.Some? then
      r.Some? && r == Some(IntentRecord(w.intent.value, r.value.participants)) && IsDiscovery(w, r.value.participants)
    else r.None?
  }

  /** Decides what is to be purged, touching nothing. */
  method ChoosePurge(store: PackageStore, target: Version) returns (chosen: Result<Option<Record>, PackageError>)
    requires store.Valid() && store.exclusiveController
    ensures chosen.Ok? ==> PurgeAccepted(store.disk, target) && PurgeRecord(store.disk, chosen.value)
    ensures chosen.Ok? && store.disk.record.None? && store.disk.removal.None? && store.disk.intent.Some? ==>
              Discoverable(store.disk)
    ensures !store.faulty && PurgeAccepted(store.disk, target) ==>
              (chosen.Ok? || (store.disk.record.None? && store.disk.removal.None? && store.disk.intent.Some?
                              && !Discoverable(store.disk)))
  {
    var w := store.disk;
    if !ValidVersion(target) || !PurgeableIntent(w, target) || !PurgeableReceipt(w, target) {
      return Err(Conflict);
    }
    var r: Option<Record> := None;
    if w.record.Some? {
      if !PurgeableRecord(w, w.record.value, target) {
        return Err(Conflict);
      }
      r := w.record;
    } else if w.removal.Some? {
      r := Some(ReceiptRecord(w.removal.value));
    }
    if w.intent.Some? {
      if r.Some? {
        if !IntentAgrees(w, r.value) {
          return Err(Conflict);
        }
      } else {
        var found := store.Discover();
        if found.Err? {
          return Err(found.error);
        }
        r := Some(IntentRecord(w.intent.value, found.value));
      }
    }
    chosen := Ok(r);
  }

  function Marked(w: World, r: Record): World {
    w.(record := Some(r.(kind := Purge)))
  }

  /** Forbids reinstalling, durably and before anything is done to anybody. */
  method MarkPurge(store: PackageStore, r: Record, target: Version) returns (o: Outcome<PackageError>)
    requires store.Valid() && store.exclusiveController
    requires PurgeAccepted(store.disk, target) && PurgeRecord(store.disk, Some(r))
    modifies store
    ensures store.Valid() && store.Grew()
    ensures store.disk == old(store.disk) || store.disk == Marked(old(store.disk), r)
    ensures o.Pass? ==> store.disk == Marked(old(store.disk), r)
    ensures !store.faulty ==> o.Pass?
  {
    o := store.Commit(PurgeMarked(r.(kind := Purge)), Marked(store.disk, r));
  }

  /** Marking the purge leaves it as able to end as it was. */
  lemma MarkedPurgeable(w: World, r: Record, target: Version)
    requires Inv(w) && PurgeAccepted(w, target) && PurgeRecord(w, Some(r))
    requires w.record.None? && w.removal.None? ==> Discoverable(w)
    ensures PurgeAccepted(Marked(w, r), target)
    ensures Purgeable(Marked(w, r), target) <==> Purgeable(w, target)
  {
    var w' := Marked(w, r);
    assert PurgeGeneration(w') == PurgeGeneration(w);
    if w.record.None? && w.removal.None? {
      forall i | 0 <= i < |r.participants|
        ensures Stoppable(w', r.participants[i], true)
      {
        assert r.participants[i] in r.participants;
      }
    }
  }

  /** Stopping the users leaves the removal one that the purge accepts. */
  lemma PreparedAccepted(w: World, w': World, target: Version)
    requires Inv(w) && Inv(w') && PurgeAccepted(w, target)
    requires w.record.Some? && w.record.value.kind.Purge? && w'.record.Some?
    requires PrepareFrame(w, w', w.record.value.generation) && Advanced(w.record.value, w'.record.value)
    ensures PurgeAccepted(w', target)
  {
    if w.removal.Some? && w.record.value.phase.IntentRecorded? {
      assert w'.record.value.participants == w.record.value.participants;
    }
  }

  /** Stopping the users, however far it gets, leaves the purge as able to end as it was. */
  lemma PreparedPurgeable(w: World, w': World, target: Version)
    requires Inv(w) && Inv(w') && PurgeAccepted(w, target)
    requires w.record.Some? && w.record.value.kind.Purge? && w'.record.Some?
    requires PrepareFrame(w, w', w.record.value.generation) && SameSessions(w, w')
    requires Advancing(w, w.record.value, w'.record.value) && StopsVerified(w', w.record.value, w'.record.value)
    ensures Purgeable(w, target) ==> Purgeable(w', target)
    ensures Purgeable(w', target)
            && (w.record.value.phase.IntentRecorded? ==> AllStoppable(w, w.record.value, true)) ==>
              Purgeable(w, target)
  {
    var r, later := w.record.value, w'.record.value;
    PreparedAccepted(w, w', target);
    if Purgeable(w, target) && later.phase.IntentRecorded? {
      forall i | 0 <= i < |later.participants|
        ensures Stoppable(w', later.participants[i], true)
      {
        assert Stoppable(w, r.participants[i], true);
      }
    }
  }

  /**
   * Preparing a purge touches the record, the intent, and the users; it may add the removal's own controller. Of the
   * acknowledgements it deletes none, and if the users keep `still`, none changes.
   */
  predicate PurgeFrame(w: World, w': World, still: bool) {
    && w'.removal == w.removal && w'.install == w.install
    && w.acks.Keys <= w'.acks.Keys && (still ==> w'.acks == w.acks)
    && w.controllers <= w'.controllers && w'.strays == w.strays && w'.quarantines == w.quarantines
    && (w.record.Some? ==> w'.record.Some?)
  }

  /**
   * The package root holds an entry that a purge does not know: a file of another kind, a quarantined executable, a
   * controller of another generation or a second one, or an install receipt without any removal.
   */
  predicate StrayEntries(w: World) {
    || w.strays != {} || w.quarantines != {} || !OwnController(w)
    || (PurgeGeneration(w).None? && w.install.Some?)
  }

  /** Stops the users of a purge already marked. */
  method StopMarked(store: PackageStore, target: Version) returns (o: Outcome<PackageError>)
    requires store.Valid() && store.exclusiveController && PurgeAccepted(store.disk, target)
    requires store.disk.record.Some? && store.disk.record.value.kind.Purge?
    modifies store
    ensures store.Valid() && store.Grew() && PurgeFrame(old(store.disk), store.disk, store.Still())
    ensures store.disk.intent == old(store.disk).intent && PurgeAccepted(store.disk, target)
    ensures o.Pass? ==> !store.disk.record.value.phase.IntentRecorded?
    ensures store.disk.record.value.kind.Purge?
            && store.disk.record.value.generation == old(store.disk).record.value.generation
    ensures store.Still() && Purgeable(old(store.disk), target) ==> Purgeable(store.disk, target)
    ensures !store.faulty ==> (o.Pass? && Purgeable(store.disk, target) <==> Purgeable(old(store.disk), target))
  {
    o := store.PrepareFromIntent(PurgeIntent(store.disk.record.value));
    PreparedAccepted(old(store.disk), store.disk, target);
    if store.Still() {
      PreparedPurgeable(old(store.disk), store.disk, target);
    }
  }

  /** Marks the purge and stops the users. */
  method StopForPurge(store: PackageStore, r: Record, target: Version) returns (o: Outcome<PackageError>)
    requires store.Valid() && store.exclusiveController
    requires PurgeAccepted(store.disk, target) && PurgeRecord(store.disk, Some(r))
    requires store.disk.record.None? && store.disk.removal.None? ==> Discoverable(store.disk)
    modifies store
    ensures store.Valid() && store.Grew() && PurgeFrame(old(store.disk), store.disk, store.Still())
    ensures store.disk.intent == old(store.disk).intent
    ensures PurgeAccepted(store.disk, target)
    ensures o.Pass? ==>
              && store.disk.record.Some? && store.disk.record.value.kind.Purge?
              && store.disk.record.value.generation == r.generation && !store.disk.record.value.phase.IntentRecorded?
    ensures store.Still() && Purgeable(old(store.disk), target) ==> Purgeable(store.disk, target)
    ensures !store.faulty ==> (o.Pass? && Purgeable(store.disk, target) <==> Purgeable(old(store.disk), target))
  {
    MarkedPurgeable(store.disk, r, target);
    o := MarkPurge(store, r, target);
    if o.Pass? {
      o := StopMarked(store, target);
    }
  }

  /** Withdrawing the intent of an accepted purge neither gains nor loses purgeability. */
  lemma WithdrawnPurgeable(w: World, w': World, target: Version)
    requires PurgeAccepted(w, target) && w.record.Some? && w' == w.(intent := None)
    ensures PurgeAccepted(w', target) && (Purgeable(w', target) <==> Purgeable(w, target))
  {
  }

  /** Marks the purge, stops the users and withdraws the intent. */
  method PreparePurge(store: PackageStore, r: Record, target: Version) returns (o: Outcome<PackageError>)
    requires store.Valid() && store.exclusiveController
    requires PurgeAccepted(store.disk, target) && PurgeRecord(store.disk, Some(r))
    requires store.disk.record.None? && store.disk.removal.None? ==> Discoverable(store.disk)
    modifies store
    ensures store.Valid() && store.Grew() && PurgeFrame(old(store.disk), store.disk, store.Still())
    ensures o.Pass? ==>
              && PurgeAccepted(store.disk, target) && store.disk.intent.None?
              && store.disk.record.Some? && store.disk.record.value.kind.Purge?
              && !store.disk.record.value.phase.IntentRecorded? && store.disk.record.value.generation == r.generation
    ensures store.Still() && Purgeable(old(store.disk), target) ==> Purgeable(store.disk, target)
    ensures !store.faulty ==> (o.Pass? && Purgeable(store.disk, target) <==> Purgeable(old(store.disk), target))
  {
    var intent := store.disk.intent;
    o := StopForPurge(store, r, target);
    if o.Pass? {
      WithdrawnPurgeable(store.disk, store.disk.(intent := None), target);
      o := ClearIntent(store, intent);
    }
  }

  function PurgeSettled(r: Record): Record {
    r.(phase := Finalizing, participants := Settled(r.participants, Disabled))
  }

  /** Checks once more that no user has a registration, then makes the removal of everybody final. */
  method FinalizePurge(store: PackageStore, r: Record) returns (o: Outcome<PackageError>, later: Record)
    requires store.Valid() && store.exclusiveController && store.disk.record == Some(r)
    requires r.kind.Purge? && !r.phase.IntentRecorded?
    modifies store
    ensures store.Valid() && store.Grew() && later.kind.Purge?
    ensures SameFiles(old(store.disk), store.disk) && old(store.disk).acks.Keys <= store.disk.acks.Keys
    ensures store.disk.record == Some(r) || store.disk.record == Some(PurgeSettled(r))
    ensures store.Still() ==>
              store.disk == old(store.disk) || store.disk == old(store.disk).(record := Some(PurgeSettled(r)))
    ensures o.Pass? ==> store.disk.record == Some(later) && later.phase.Finalizing? && AllDisabled(later.participants)
    ensures !store.faulty ==> (o.Pass? <==> r.phase.Finalizing? || AllStoppable(old(store.disk), r, false))
  {
    later := r;
    o := Pass;
    if r.phase.Finalizing? {
      return;
    }
    var i := 0;
    while i < |r.participants|
      invariant 0 <= i <= |r.participants| && o.Pass?
      invariant store.Valid() && store.Grew() && Drifted(old(store.disk), store.disk)
      invariant store.Still() ==> store.disk == old(store.disk)
      invariant !store.faulty ==> forall k :: 0 <= k < i ==> Stoppable(store.disk, r.participants[k], false)
    {
      o := store.Cleanup(r, i);
      if o.Fail? {
        return;
      }
      i := i + 1;
    }
    later := PurgeSettled(r);
    o := store.Commit(PurgeFinalized, store.disk.(record := Some(later)));
  }

  lemma FinalizedAccepted(w: World, w': World, target: Version)
    requires Inv(w) && w.record.Some? && PurgeAccepted(w, target) && SameFiles(w, w')
    requires w'.record == w.record || w'.record == Some(PurgeSettled(w.record.value))
    ensures PurgeAccepted(w', target)
  {
    if w'.record != w.record && w.removal.Some? {
      assert w'.record.value.participants == w.record.value.participants;
    }
  }

  lemma FinalizedPurgeable(w: World, w': World, target: Version)
    requires Inv(w) && w.record.Some? && PurgeAccepted(w, target)
    requires w' == w || w' == w.(record := Some(PurgeSettled(w.record.value)))
    ensures Purgeable(w, target) ==> Purgeable(w', target)
    ensures Purgeable(w', target) && (w.record.value.phase.Finalizing? || AllStoppable(w, w.record.value, false)) ==>
              w.record.value.phase.IntentRecorded? || Purgeable(w, target)
  {
    FinalizedAccepted(w, w', target);
  }

  lemma RootKnownIsPurgeable(w: World, target: Version)
    requires PurgeAccepted(w, target) && w.intent.None?
    requires if w.record.Some? then w.record.value.phase.Finalizing? else w.removal.None?
    ensures RootKnown(w, w.record) <==> Purgeable(w, target)
  {
    if w.record.Some? && w.controllers <= {w.record.value.generation} {
      SubsetIsSmaller(w.controllers, {w.record.value.generation});
    }
  }

  /** Goes on with a purge whose users are stopped and whose intent is withdrawn. */
  method PurgePrepared(store: PackageStore, r: Record, target: Version) returns (o: Outcome<PackageError>)
    requires store.Valid() && store.exclusiveController && PurgeAccepted(store.disk, target)
    requires store.disk.record == Some(r) && store.disk.intent.None? && r.kind.Purge? && !r.phase.IntentRecorded?
    modifies store
    ensures store.Valid() && store.Grew()
    ensures store.Still() && Purgeable(old(store.disk), target) ==> Purgeable(store.disk, target)
    ensures o.Pass? ==> Purged(store.disk)
    ensures StrayEntries(old(store.disk)) ==> o.Fail? && PurgeFrame(old(store.disk), store.disk, store.Still())
    ensures !store.faulty ==> (o.Pass? <==> Purgeable(old(store.disk), target))
  {
    var later: Record;
    o, later := FinalizePurge(store, r);
    FinalizedAccepted(old(store.disk), store.disk, target);
    if store.Still() {
      FinalizedPurgeable(old(store.disk), store.disk, target);
    }
    if o.Pass? {
      ghost var finalized := store.disk;
      RootKnownIsPurgeable(finalized, target);
      o := PurgeSettledState(store, Some(later));
      if Purgeable(finalized, target) && RootKnown(finalized, Some(later)) {
        RemnantStaysPurgeable(finalized, store.disk, Some(later), target);
      }
    }
  }

  /** Purges the removal `r`, from whatever point it had reached. */
  method PurgeOperation(store: PackageStore, r: Record, target: Version) returns (o: Outcome<PackageError>)
    requires store.Valid() && store.exclusiveController
    requires PurgeAccepted(store.disk, target) && PurgeRecord(store.disk, Some(r))
    requires store.disk.record.None? && store.disk.removal.None? ==> Discoverable(store.disk)
    modifies store
    ensures store.Valid() && store.Grew()
    ensures store.Still() && Purgeable(old(store.disk), target) ==> Purgeable(store.disk, target)
    ensures o.Pass? ==> Purged(store.disk)
    ensures StrayEntries(old(store.disk)) ==> o.Fail? && PurgeFrame(old(store.disk), store.disk, store.Still())
    ensures !store.faulty ==> (o.Pass? <==> Purgeable(old(store.disk), target))
  {
    o := PreparePurge(store, r, target);
    if o.Pass? {
      o := PurgePrepared(store, store.disk.record.value, target);
    }
  }

  /**
   * Purges a removal. It ends without faults exactly from the `Purgeable` states, with nothing left; every interrupted
   * run leaves a `Purgeable` state behind; what it does not accept it does not touch; and an unknown entry of the
   * package root stops it before anything is deleted.
   */
  method FinishPurge(store: PackageStore, target: Version) returns (o: Outcome<PackageError>)
    requires store.Valid() && store.exclusiveController
    modifies store
    ensures store.Valid() && store.Grew()
    ensures o.Pass? ==>
              && store.disk.record == None && store.disk.removal == None && store.disk.install == None
              && store.disk.intent == None && store.disk.controllers == {} && store.disk.acks == map[]
    ensures o.Pass? ==> Purged(store.disk)
    ensures store.Still() && Purgeable(old(store.disk), target) ==> Purgeable(store.disk, target)
    ensures !PurgeAccepted(old(store.disk), target) ==> o.Fail? && store.disk == old(store.disk)
    ensures old(store.disk).record.Some?
            && (|| old(store.disk).record.value.targetVersion != target
                || old(store.disk).record.value.disposition != Forward
                || (old(store.disk).record.value.kind != Remove && old(store.disk).record.value.kind != Purge)) ==>
              o.Fail? && store.disk == old(store.disk)
    ensures old(store.disk).removal.Some? && old(store.disk).removal.value.removedVersion != target ==>
              o.Fail? && store.disk == old(store.disk)
    ensures old(store.disk).intent.Some?
            && (|| old(store.disk).intent.value.kind != Remove
                || old(store.disk).intent.value.targetVersion != target
                || (old(store.disk).record.Some?
                    && old(store.disk).record.value.generation != old(store.disk).intent.value.generation)) ==>
              o.Fail? && store.disk == old(store.disk)
    ensures StrayEntries(old(store.disk)) ==> o.Fail? && PurgeFrame(old(store.disk), store.disk, store.Still())
    ensures !store.faulty ==> (o.Pass? <==> Purgeable(old(store.disk), target))
  {
    var chosen := ChoosePurge(store, target);
    if chosen.Err? {
      return Fail(chosen.error);
    }
    if chosen.value.Some? {
      o := PurgeOperation(store, chosen.value.value, target);
    } else {
      o := PurgeSettledState(store, None);
      if Purgeable(old(store.disk), target) && RootKnown(old(store.disk), None) {
        RemnantStaysPurgeable(old(store.disk), store.disk, None, target);
      }
    }
  }
}
