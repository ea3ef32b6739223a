/** What users who come and go do to an operation in progress, and what they cannot do to it. */
module PackageSessions {
  import opened Runs
  import opened Wrappers
  import opened PackageTypes
  import opened PackageWorld
  import opened PackageInvariant
  import opened PackageRuns
  import opened PackageConditions

  /** Users come and go, acknowledge, move things; no manager is changed. */
  predicate IsSession(e: Event) {
    || e.LoggedIn? || e.LoggedOut? || e.ProviderStarted? || e.ProviderGone? || e.Acknowledged? || e.SettingsChanged?
  }

  predicate OnlySessions(run: History, i: nat, n: nat)
    requires n <= |run.events|
  {
    forall k :: i <= k < n ==> IsSession(run.events[k])
  }

  lemma SessionDrifts(w: World, e: Event, w': World)
    requires Step(w, e, w') && IsSession(e)
    ensures Drifted(w, w')
  {
  }

  /**
   * However long users come and go between two steps of the controller: nobody is enabled or disabled by it, and
   * while no provider is let in, nobody who was stopped is registered again.
   */
  lemma {:induction false} SessionsKeepGuards(run: History, i: nat, n: nat, ps: seq<Participant>)
    requires IsRun(run) && i <= n < |run.worlds| && OnlySessions(run, i, n)
    ensures Drifted(run.worlds[i], run.worlds[n])
    ensures forall k :: 0 <= k < |ps| ==> (ChoiceHeld(run.worlds[n], ps[k]) <==> ChoiceHeld(run.worlds[i], ps[k]))
    ensures DoorShut(run.worlds[i]) && QuietUsers(run.worlds[i], ps) ==> QuietUsers(run.worlds[n], ps)
  {
    if i < n {
      SessionsKeepGuards(run, i, n - 1, ps);
      assert StepAt(run, Step, n - 1);
      SessionDrifts(run.worlds[n - 1], run.events[n - 1], run.worlds[n]);
    }
  }

  function AfterLogin(w: World, uid: Uid, identity: Identity): World {
    w.(runtime := w.runtime[uid := identity])
  }

  /** The user comes back to the runtime directory that is recorded, or none is. */
  predicate ComesBack(r: Record, i: nat, uid: Uid, identity: Identity)
    requires i < |r.participants|
  {
    var p := r.participants[i];
    p.uid == uid ==>
      p.runtimeDevice.None? || (p.runtimeDevice == Some(identity.device) && p.runtimeInode == Some(identity.inode))
  }

  /** A login leaves an interrupted preparation one that can be taken up again exactly if the user comes back. */
  lemma LoginKeepsPreparable(w: World, intent: QuiesceIntent, uid: Uid, identity: Identity)
    requires Preparable(w, intent) && w.record.Some? && w.record.value.phase.IntentRecorded? && uid !in w.runtime
    ensures var r := w.record.value;
            Preparable(AfterLogin(w, uid, identity), intent) <==>
            forall i :: 0 <= i < |r.participants| ==> ComesBack(r, i, uid, identity)
  {
    var r, w' := w.record.value, AfterLogin(w, uid, identity);
    forall i | 0 <= i < |r.participants|
      ensures Stoppable(w', r.participants[i], true) <==> ComesBack(r, i, uid, identity)
    {
      assert Stoppable(w, r.participants[i], true);
    }
  }

  /**
   * The user is settled already, or comes back; no intent keeps out the successor that is then needed; and no receipt
   * is there already that says the user was away.
   */
  predicate SettlesAfter(w: World, r: Record, i: nat, uid: Uid, identity: Identity)
    requires i < |r.participants|
  {
    r.participants[i].settlement.Pending? ==>
      && ComesBack(r, i, uid, identity)
      && (r.participants[i].uid == uid && r.participants[i].enabled && Restoring(r) ==> w.intent.None?)
      && (r.participants[i].uid == uid && r.participants[i].runtimeDevice.None? && !Restoring(r) ==> w.removal.None?)
  }

  /** A login leaves an operation one that can be finished exactly under that condition. */
  lemma LoginKeepsFinishable(w: World, r: Record, uid: Uid, identity: Identity)
    requires Inv(w) && SettlingFinishable(w, r) && uid !in w.runtime
    ensures SettlingFinishable(AfterLogin(w, uid, identity), r) <==>
            forall i :: 0 <= i < |r.participants| ==> SettlesAfter(w, r, i, uid, identity)
  {
    var w' := AfterLogin(w, uid, identity);
    forall i | 0 <= i < |r.participants| && r.participants[i].settlement.Pending?
      ensures SettlesAfter(w, r, i, uid, identity) <==>
              && Settleable(w', r, i)
              && (w.removal.Some? && !Restoring(r) ==>
                    Removed(w', r.participants[i]) == Removed(w, r.participants[i]))
    {
      assert Settleable(w, r, i);
    }
    assert forall i :: 0 <= i < |r.participants| && !r.participants[i].settlement.Pending? ==>
                         Removed(w', r.participants[i]) == Removed(w, r.participants[i]);
  }

  function AfterLogout(w: World, uid: Uid): World {
    Quieted(w, uid).(runtime := w.runtime - {uid})
  }

  /** Logging in and out again leaves everything as it was, so what the login spoiled is possible again. */
  lemma LogoutUndoesLogin(w: World, uid: Uid, identity: Identity)
    requires UsersInv(w) && uid !in w.runtime
    ensures AfterLogout(AfterLogin(w, uid, identity), uid) == w
  {
    assert w.runtime[uid := identity] - {uid} == w.runtime;
    assert w.registered - {uid} == w.registered && w.ready - {uid} == w.ready;
  }

  /** Nobody but this user stands in the way of preparing the record, and this one does not when away. */
  predicate OthersStoppable(w: World, r: Record, uid: Uid) {
    forall i :: 0 <= i < |r.participants| ==>
      if r.participants[i].uid == uid then uid !in w.misplaced else Stoppable(w, r.participants[i], true)
  }

  /** A user's logout makes the operation one that can be prepared exactly if nobody else stands in the way. */
  lemma PreparableAfterLogout(w: World, r: Record, intent: QuiesceIntent, uid: Uid)
    requires w.record == Some(r) && Carries(r, intent) && r.phase.IntentRecorded?
    ensures Preparable(AfterLogout(w, uid), intent) <==> OthersStoppable(w, r, uid)
  {
    forall i | 0 <= i < |r.participants|
      ensures Stoppable(AfterLogout(w, uid), r.participants[i], true) <==>
              if r.participants[i].uid == uid then uid !in w.misplaced else Stoppable(w, r.participants[i], true)
    {
    }
  }

  predicate OthersSettleable(w: World, r: Record, uid: Uid) {
    forall i :: 0 <= i < |r.participants| && r.participants[i].settlement.Pending? ==>
      if r.participants[i].uid == uid then uid !in w.misplaced else Settleable(w, r, i)
  }

  /** Likewise for finishing it, as long as the receipts of earlier operations fit. */
  lemma FinishableAfterLogout(w: World, r: Record, uid: Uid)
    requires w.record == Some(r) && (Restoring(r) || w.removal.None?)
    ensures SettlingFinishable(AfterLogout(w, uid), r) <==> OthersSettleable(w, r, uid) && InstallReceiptFits(w, r)
  {
    forall i | 0 <= i < |r.participants|
      ensures Settleable(AfterLogout(w, uid), r, i) <==>
              if r.participants[i].uid == uid then uid !in w.misplaced else Settleable(w, r, i)
    {
    }
  }

  /** A logout never spoils anything, as long as a removal has no receipt. */
  lemma LogoutKeepsOperation(w: World, r: Record, intent: QuiesceIntent, uid: Uid)
    requires Inv(w) && w.record == Some(r)
    ensures Preparable(w, intent) ==> Preparable(AfterLogout(w, uid), intent)
    ensures (Restoring(r) || w.removal.None?) && SettlingFinishable(w, r) ==> SettlingFinishable(AfterLogout(w, uid), r)
  {
    var w' := AfterLogout(w, uid);
    forall i | 0 <= i < |r.participants|
      ensures Stoppable(w, r.participants[i], true) ==> Stoppable(w', r.participants[i], true)
      ensures Settleable(w, r, i) ==> Settleable(w', r, i)
    {
    }
  }
}
