/**
 * When a reinstall can end. An install receipt is rewritten only by a reinstall, and a reinstall accepts an older one
 * only if it installed the version now being reinstalled; an upgrade in between makes the two differ for good.
 */
module PackageStuck {
  import opened Runs
  import opened Wrappers
  import opened PackageTypes
  import opened PackageWorld
  import opened PackageInvariant
  import opened PackageRuns

  /** A reinstall not yet final meets the receipt of an earlier one, which installed another version. */
  predicate Stuck(w: World) {
    && w.record.Some? && w.record.value.kind.Reinstall? && !w.record.value.phase.Finalizing?
    && w.install.Some? && w.install.value.installGeneration != w.record.value.generation
    && w.install.value.installedVersion != w.record.value.sourceVersion
  }

  lemma StepKeepsStuck(w: World, e: Event, w': World)
    requires Inv(w) && Step(w, e, w') && Stuck(w)
    ensures Stuck(w') && !e.RecordCleared? && SameOperation(w.record.value, w'.record.value)
  {
    StepKeepsOperation(w, e, w');
  }

  /** Whatever is done, crashed and repeated: the reinstall stays on record and stays stuck. */
  lemma {:induction false} StuckForever(run: History, i: nat, j: nat)
    requires IsRun(run) && i <= j <= |run.events| && Stuck(run.worlds[i])
    ensures Stuck(run.worlds[j]) && Uncleared(run, i, j)
    ensures SameOperation(run.worlds[i].record.value, run.worlds[j].record.value)
  {
    if i < j {
      StuckForever(run, i, j - 1);
      RunKeepsInv(run, j - 1);
      assert StepAt(run, Step, j - 1);
      StepKeepsStuck(run.worlds[j - 1], run.events[j - 1], run.worlds[j]);
      OperationIsStable(run, i, j);
    }
  }

  /** From this state there is a run that ends the operation on record. */
  ghost predicate CanEnd(w: World) {
    exists run :: EndingRun(run, w)
  }

  ghost predicate EndingRun(run: History, w: World) {
    && IsRun(run) && run.worlds[0] == w && |run.events| > 0
    && Uncleared(run, 0, |run.events| - 1) && run.events[|run.events| - 1].RecordCleared?
  }

  // ---- a run that ends a reinstall ----

  /** A run so far, at the end of which the operation it began with is still on record. */
  ghost predicate Pursuing(run: History, w: World) {
    && IsRun(run) && run.worlds[0] == w && Uncleared(run, 0, |run.events|)
    && Inv(Last(run)) && Last(run).record.Some? && Last(run).record.value.kind.Reinstall?
    && Last(run).record.value.predecessor.Some?
  }

  ghost function Pursue(run: History, w: World, e: Event, next: World): (later: History)
    requires Pursuing(run, w) && Step(Last(run), e, next) && !e.RecordCleared?
    ensures Pursuing(later, w) && Last(later) == next
  {
    StepKeepsInv(Last(run), e, next);
    StepKeepsOperation(Last(run), e, next);
    Extend(run, e, next)
  }

  /** The record settles, and the install receipt, if any, does not stand against it. */
  ghost predicate Unopposed(w: World) {
    && w.record.Some? && w.record.value.phase.Settling? && w.record.value.predecessor.Some?
    && InstallAccepted(w.install, w.record.value)
  }

  /** How a user who is not logged in is settled. */
  function WhileAway(p: Participant): Settlement {
    if p.enabled then DeferredEnabled else Disabled
  }

  /** Gives one pending user the recorded choice back and settles the user. */
  lemma SettlePending(run: History, w: World, i: nat) returns (later: History)
    requires Pursuing(run, w) && Unopposed(Last(run)) && i < |Last(run).record.value.participants|
    requires Last(run).record.value.participants[i].settlement.Pending?
    ensures Pursuing(later, w) && Last(later).install == Last(run).install
    ensures var r := Last(run).record.value;
            Last(later).record == Some(WithSettlement(r, i, WhileAway(r.participants[i])))
  {
    var r := Last(run).record.value;
    var p := r.participants[i];
    var s := WhileAway(p);
    assert Addressed(r, Restore, p.uid);
    later := Pursue(run, w, EffectRun(Restore, p.uid), ChoiceApplied(Last(run), p.uid, p.enabled));
    later := Pursue(later, w, ParticipantSettled(i, s), Last(later).(record := Some(WithSettlement(r, i, s))));
  }

  /** Settles all participants from `i` on. */
  lemma {:induction false} SettleFrom(run: History, w: World, i: nat) returns (later: History)
    requires Pursuing(run, w) && Unopposed(Last(run)) && i <= |Last(run).record.value.participants|
    requires NonePending(Last(run).record.value.participants[..i])
    ensures Pursuing(later, w) && Unopposed(Last(later)) && NonePending(Last(later).record.value.participants)
    decreases |Last(run).record.value.participants| - i
  {
    later := run;
    var ps := Last(run).record.value.participants;
    if i == |ps| {
      assert ps[..i] == ps;
    } else {
      if ps[i].settlement.Pending? {
        later := SettlePending(run, w, i);
        UnopposedStays(Last(run), Last(later));
      }
      var qs := Last(later).record.value.participants;
      assert qs[..i + 1] == ps[..i] + [qs[i]];
      later := SettleFrom(later, w, i + 1);
    }
  }

  /** Settling does not bring a receipt into its way: one that this reinstall wrote leaves nobody to settle. */
  lemma UnopposedStays(w: World, w': World)
    requires Inv(w) && Unopposed(w) && w.record.value.kind.Reinstall? && !NonePending(w.record.value.participants)
    requires w'.install == w.install && w'.record.Some?
    requires w'.record.value == w.record.value.(participants := w'.record.value.participants)
    ensures Unopposed(w')
  {
  }

  /** Clears the record of a reinstall that has neither its controller nor the removal's receipt left. */
  lemma EndRetired(run: History, w: World)
    requires Pursuing(run, w) && Last(run).record.value.phase.Finalizing?
    requires Last(run).removal.None? && Last(run).record.value.generation !in Last(run).controllers
    ensures CanEnd(w)
  {
    var later := Extend(run, RecordCleared, Last(run).(record := None));
    assert EndingRun(later, w);
  }

  /** Ends a reinstall that is final. */
  lemma EndFinal(run: History, w: World)
    requires Pursuing(run, w) && Last(run).record.value.phase.Finalizing?
    ensures CanEnd(w)
  {
    var r := Last(run).record.value;
    var later := Pursue(run, w, ControllerRetired,
                        Last(run).(controllers := Last(run).controllers - {r.generation}));
    if Last(later).removal.Some? {
      later := Pursue(later, w, RemovalConsumed, Last(later).(removal := None));
    }
    EndRetired(later, w);
  }

  /** Ends a reinstall that is settling and meets no receipt it does not accept. */
  lemma EndSettling(run: History, w: World)
    requires Pursuing(run, w) && Unopposed(Last(run))
    ensures CanEnd(w)
  {
    var later := SettleFrom(run, w, 0);
    var r := Last(later).record.value;
    later := Pursue(later, w, InstallWritten, Last(later).(install := Some(ExactInstall(r))));
    later := Pursue(later, w, FinalizingReached, Last(later).(record := Some(r.(phase := Finalizing))));
    EndFinal(later, w);
  }

  /** A reinstall on record can be carried to its end exactly if it is not stuck. */
  lemma ReinstallEndsUnlessStuck(w: World)
    requires Inv(w) && w.record.Some? && w.record.value.kind.Reinstall?
    ensures CanEnd(w) <==> !Stuck(w)
  {
    var r := w.record.value;
    if Stuck(w) {
      if CanEnd(w) {
        var run :| EndingRun(run, w);
        StuckForever(run, 0, |run.events|);
        assert false;
      }
    } else if r.phase.Finalizing? {
      EndFinal(Start(w), w);
    } else {
      var run := Start(w);
      if r.phase.PublishersStopped? {
        run := Pursue(run, w, SettlingBegun, w.(record := Some(r.(phase := Settling))));
      }
      EndSettling(run, w);
    }
  }
}
