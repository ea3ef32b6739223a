/**
 * The background-mode transition store. Its methods follow the store's, loop for loop; every durable write and every
 * effect is one step of Lifecycle, and may report a failure before or after it took hold.
 */
module LifecycleControl {
  import opened Faults
  import opened Runs
  import opened Wrappers
  import opened Text
  import opened Lifecycle

  datatype LifecycleError = Storage | InvalidRecord | ConflictingTransition | Manager | Readiness

  /** How many more durable writes a transition can take. */
  function WritesLeft(t: Transition): nat {
    match (t.kind, t.disposition, t.phase)
    case (Enable, Forward, IntentRecorded) => 5
    case (Enable, Forward, SourceStopped) => 4
    case (Enable, Forward, ManagerEnabled) => 3
    case (Enable, Rollback, ManagerEnabled) => 2
    case (Enable, Rollback, RollbackTargetStopped) => 1
    case (Disable, Forward, IntentRecorded) => 2
    case (Disable, Forward, PublisherStopped) => 1
    case _ => 0
  }

  /** The stored record belongs to this state directory and is well formed. */
  predicate IsOwn(t: Transition, observed: StateIdentity) {
    IsUuid(t.generation) && t.targetEnabled == t.kind.Enable? && t.state == observed
  }

  /** Graceful, forced and controlled stopping are due 35, 40 and 45 seconds from now, or at the end of time. */
  predicate IsDue(t: Transition, now: Millis) {
    && t.graceful == (if now <= 18446744073709516615 then now + 35_000 else 18446744073709551615)
    && t.force == (if now <= 18446744073709511615 then now + 40_000 else 18446744073709551615)
    && t.control == (if now <= 18446744073709506615 then now + 45_000 else 18446744073709551615)
  }

  /** The request can be served: it starts a transition, or resumes the one on record. */
  predicate Serves(w: World, requested: Option<Kind>, observed: Option<StateIdentity>) {
    && observed.Some?
    && if w.record.Some? then
         IsOwn(w.record.value, observed.value) && (requested.Some? ==> requested == Some(w.record.value.kind))
       else requested.Some?
  }

  /** The choice a transition ends with. */
  function FinalChoice(t: Transition): bool {
    if t.disposition.Rollback? then t.priorEnabled else t.targetEnabled
  }

  /** The transition was cleared, leaving the manager where it belongs; a rollback is reported as lost readiness. */
  predicate Concluded(w: World, t: Transition, o: Outcome<LifecycleError>) {
    && w.record.None? && w.manager == FinalChoice(t) && w.acknowledged == Some(w.manager)
    && (o.Pass? ==> t.disposition.Forward?)
    && (o == Fail(Readiness) ==> t.disposition.Rollback?)
  }

  class TransitionStore {
    var disk: World
    ghost var run: History
    ghost var writes: nat      // durable writes of the record so far
    const faulty: bool

    /** A store without a transition. */
    constructor (manager: bool, acknowledged: Option<bool>, faulty: bool)
      ensures Valid() && disk == World(None, manager, acknowledged) && this.faulty == faulty && writes == 0
    {
      disk, writes := World(None, manager, acknowledged), 0;
      run := Start(World(None, manager, acknowledged));
      this.faulty := faulty;
    }

    ghost predicate Valid()
      reads this
    {
      IsRun(run) && Last(run) == disk && Inv(disk)
    }

    twostate predicate Grew()
      reads this
    {
      Continues(old(run), run)
    }

    method Take(ghost e: Event, next: World)
      requires Valid() && Step(disk, e, next)
      modifies this`disk, this`run
      ensures Valid() && Grew() && disk == next
    {
      StepKeepsInv(disk, e, next);
      run := Extend(run, e, next);
      disk := next;
    }

    /** Writes the record under the exclusive admission lock; the write may fail before or after the rename. */
    method Persist(ghost e: Event, t: Transition) returns (o: Outcome<LifecycleError>)
      requires Valid() && Step(disk, e, disk.(record := Some(t)))
      modifies this
      ensures Valid() && Grew() && writes <= old(writes) + 1
      ensures disk == old(disk).(record := Some(t)) || (o.Fail? && disk == old(disk))
      ensures !faulty ==> o.Pass?
      ensures o != Fail(Readiness)
    {
      var before := Fault(faulty);
      if before {
        return Fail(Storage);
      }
      writes := writes + 1;
      Take(e, disk.(record := Some(t)));
      var after := Fault(faulty);
      o := if after then Fail(Storage) else Pass;
    }

    method ClearExact() returns (o: Outcome<LifecycleError>)
      requires Valid() && Step(disk, Cleared, disk.(record := None))
      modifies this`disk, this`run
      ensures Valid() && Grew()
      ensures disk == old(disk).(record := None) || (o.Fail? && disk == old(disk))
      ensures !faulty ==> o.Pass?
      ensures o != Fail(Readiness)
    {
      var before := Fault(faulty);
      if before {
        return Fail(Storage);
      }
      Take(Cleared, disk.(record := None));
      var after := Fault(faulty);
      o := if after then Fail(Storage) else Pass;
    }

    /** An effect on the manager or the provider; failing, it may have taken hold or not. */
    method Effect(op: EffectOp) returns (o: Outcome<LifecycleError>)
      requires Valid() && disk.record.Some? && MayRun(disk.record.value, op)
      modifies this`disk, this`run
      ensures Valid() && Grew()
      ensures disk == Applied(old(disk), old(disk).record.value, op) || (o.Fail? && disk == old(disk))
      ensures o == Fail(Readiness) ==> op.WaitUntilReady?
      ensures !faulty ==> o.Pass?
    {
      var before := Fault(faulty);
      if before {
        return Fail(if op.WaitUntilReady? then Readiness else Manager);
      }
      Take(EffectRun(op), Applied(disk, disk.record.value, op));
      var after := Fault(faulty);
      o := if after then Fail(if op.WaitUntilReady? then Readiness else Manager) else Pass;
    }

    /** Runs the effect of the current phase and durably records the phase it leads to. */
    method AdvanceBy(t: Transition, op: EffectOp) returns (o: Outcome<LifecycleError>, later: Transition)
      requires Valid() && disk.record == Some(t) && MayRun(t, op) && NextPhase(t).Some?
      requires PhaseEarned(Applied(disk, t, op), t, NextPhase(t).value)
      modifies this
      ensures Valid() && Grew() && writes <= old(writes) + 1
      ensures later == t.(phase := NextPhase(t).value)
      ensures disk.record == Some(t) || disk.record == Some(later)
      ensures o.Pass? ==> disk.record == Some(later)
      ensures o == Fail(Readiness) ==> op.WaitUntilReady? && disk.record == Some(t) && writes == old(writes)
      ensures !faulty ==> o.Pass?
    {
      later := t.(phase := NextPhase(t).value);
      o := Effect(op);
      if o.Fail? {
        return;
      }
      o := Persist(Advanced(later.phase), later);
    }

    /** Acknowledges the manager's choice and clears the record. */
    method Conclude(t: Transition) returns (o: Outcome<LifecycleError>)
      requires Valid() && disk.record == Some(t) && IsLast(t)
      modifies this`disk, this`run
      ensures Valid() && Grew()
      ensures disk.record == Some(t) || (disk.record.None? && disk.manager == FinalChoice(t)
                                         && disk.acknowledged == Some(disk.manager))
      ensures o.Pass? ==> disk.record.None?
      ensures o != Fail(Readiness)
      ensures !faulty ==> o.Pass?
    {
      o := Effect(BeforeClear);
      if o.Pass? {
        o := ClearExact();
      }
    }

    /** Starts a transition: captures the manager's choice, then writes the first record. */
    method Begin(kind: Kind, observed: StateIdentity, expected: Option<string>, now: Millis, uuid: string)
      returns (o: Outcome<LifecycleError>, t: Transition)
      requires Valid() && disk.record.None? && IsUuid(uuid)
      modifies this
      ensures Valid() && Grew() && writes <= old(writes) + 1 && IsFresh(old(disk), t) && t.kind == kind
      ensures t.generation == uuid && t.state == observed && t.expectedInstance == expected && t.created == now
      ensures t.priorEnabled == old(disk).manager && t.targetEnabled == kind.Enable? && IsDue(t, now)
      ensures disk == old(disk) || disk == old(disk).(record := Some(t))
      ensures o.Pass? ==> disk.record == Some(t)
      ensures o != Fail(Readiness)
      ensures !faulty ==> o.Pass?
    {
      var prior := disk.manager;
      t := WithDeadlines(Transition(uuid, kind, Forward, IntentRecorded, prior, kind.Enable?, observed, expected,
                                    now, 0, 0, 0), now);
      var fault := Fault(faulty);
      if fault {
        return Fail(Manager), t;
      }
      o := Persist(Created(t), t);
    }

    /** Resumes the transition on record, with deadlines of its own. */
    method Renew(t: Transition, requested: Option<Kind>, observed: StateIdentity, now: Millis)
      returns (o: Outcome<LifecycleError>, later: Transition)
      requires Valid() && disk.record == Some(t)
      modifies this
      ensures Valid() && Grew() && writes <= old(writes) + 1 && later == WithDeadlines(t, now)
      ensures disk == old(disk) || disk == old(disk).(record := Some(later))
      ensures o.Pass? ==> disk.record == Some(later)
      ensures o != Fail(Readiness)
      ensures !Serves(old(disk), requested, Some(observed)) ==> o.Fail? && disk == old(disk) && writes == old(writes)
      ensures !faulty ==> (o.Pass? <==> Serves(old(disk), requested, Some(observed)))
      ensures observed != t.state ==> o == Fail(InvalidRecord) && disk == old(disk) && writes == old(writes)
      ensures observed == t.state && requested.Some? && requested.value != t.kind ==>
                o == Fail(ConflictingTransition) && disk == old(disk) && writes == old(writes)
      ensures !faulty && observed == t.state && (requested.None? || requested.value == t.kind) ==> o.Pass?
      ensures IsDue(later, now) && SameTransition(t, later)
      ensures later.phase == t.phase && later.disposition == t.disposition
    {
      later := WithDeadlines(t, now);
      if !IsOwn(t, observed) {
        return Fail(InvalidRecord), later;
      }
      if requested.Some? && requested.value != t.kind {
        return Fail(ConflictingTransition), later;
      }
      o := Persist(Renewed(now), later);
    }

    /** Resumes the transition on record, or begins the requested one. */
    method Acquire(requested: Option<Kind>, observed: Option<StateIdentity>, expected: Option<string>, now: Millis,
                   uuid: string) returns (o: Outcome<LifecycleError>, t: Transition)
      requires Valid() && IsUuid(uuid)
      modifies this
      ensures Valid() && Grew() && writes <= old(writes) + 1
      ensures disk == old(disk).(record := disk.record) && (old(disk).record.Some? ==> disk.record.Some?)
      ensures !Serves(old(disk), requested, observed) ==> o.Fail? && disk == old(disk) && writes == old(writes)
      ensures old(disk).record.Some? ==> SameTransition(old(disk).record.value, disk.record.value)
      ensures o.Pass? ==>
                && disk.record == Some(t) && (requested.Some? ==> t.kind == requested.value)
                && (if old(disk).record.Some? then t == WithDeadlines(old(disk).record.value, now)
                    else IsFresh(old(disk), t))
      ensures o != Fail(Readiness)
      ensures !faulty && Serves(old(disk), requested, observed) ==> o.Pass?
      ensures observed.None? || (old(disk).record.None? && requested.None?) ==> o.Fail? && disk == old(disk)
      ensures old(disk).record.Some? && observed.Some? && observed.value != old(disk).record.value.state ==>
                o == Fail(InvalidRecord) && disk == old(disk) && writes == old(writes)
      ensures !faulty && old(disk).record.Some? && observed == Some(old(disk).record.value.state)
              && (requested.None? || requested.value == old(disk).record.value.kind) ==>
                o.Pass?
      ensures !faulty && old(disk).record.None? && observed.Some? && requested.Some? ==> o.Pass?
      ensures disk.record.Some? && old(disk).record.None? ==>
                observed == Some(disk.record.value.state) && requested == Some(disk.record.value.kind)
    {
      t := Transition("", Enable, Forward, IntentRecorded, false, false, StateIdentity("", 0, 0), None, 0, 0, 0, 0);
      if observed.None? {
        return Fail(Storage), t;
      }
      if disk.record.Some? {
        o, t := Renew(disk.record.value, requested, observed.value, now);
      } else if requested.Some? {
        o, t := Begin(requested.value, observed.value, expected, now, uuid);
      } else {
        o := Fail(InvalidRecord);
      }
    }

    /** Turns the transition back; it ends by reporting that readiness could not be reached. */
    method ResumeRollback(t: Transition) returns (o: Outcome<LifecycleError>)
      requires Valid() && disk.record == Some(t) && t.disposition.Rollback?
      modifies this
      ensures Valid() && Grew() && writes <= old(writes) + WritesLeft(t) && o.Fail?
      ensures disk.record.Some? ==> SameTransition(t, disk.record.value)
      ensures disk.record.None? ==> Concluded(disk, t, o)
      ensures !faulty ==> disk.record.None? && o == Fail(Readiness)
    {
      var current := t;
      if current.phase.PriorChoiceRestored? {
        o := ConcludeRollback(current);
        return;
      }
      if current.phase.ManagerEnabled? {
        o, current := AdvanceBy(current, StopPublishers);
        if o.Fail? {
          return;
        }
      }
      o, current := AdvanceBy(current, RestorePrior);
      if o.Fail? {
        return;
      }
      o := ConcludeRollback(current);
    }

    method ConcludeRollback(t: Transition) returns (o: Outcome<LifecycleError>)
      requires Valid() && disk.record == Some(t) && t.disposition.Rollback? && t.phase.PriorChoiceRestored?
      modifies this`disk, this`run
      ensures Valid() && Grew() && o.Fail?
      ensures disk.record == Some(t) || Concluded(disk, t, o)
      ensures !faulty ==> disk.record.None? && o == Fail(Readiness)
    {
      if t.priorEnabled {
        :- Effect(WaitUntilReady);
      }
      :- Conclude(t);
      o := Fail(Readiness);
    }

    /**
     * One turn of the loop for a transition going forward and not yet at its end: one effect and one write, or, when
     * the successor does not become ready, the turn to rollback.
     */
    method ForwardTurn(t: Transition, now: Millis) returns (o: Outcome<LifecycleError>, later: Transition)
      requires Valid() && disk.record == Some(t) && t.disposition.Forward? && !IsLast(t)
      modifies this
      ensures Valid() && Grew() && writes <= old(writes) + 1
      ensures disk.record.Some? && SameTransition(t, disk.record.value)
      ensures o.Pass? ==> disk.record == Some(later) && WritesLeft(later) < WritesLeft(t)
      ensures o.Pass? && later.disposition.Rollback? ==> t.phase.ManagerEnabled?
      ensures !faulty ==> o.Pass? && later.disposition.Forward?
    {
      if t.phase.IntentRecorded? {
        o, later := AdvanceBy(t, StopPublishers);
      } else if t.phase.SourceStopped? {
        o, later := AdvanceBy(t, EnableAndStart);
      } else if t.phase.PublisherStopped? {
        o, later := AdvanceBy(t, DisableAndStop);
      } else {
        var ready := Effect(WaitUntilReady);
        if ready.Fail? {
          later := WithDeadlines(t.(disposition := Rollback), now);
          o := Persist(TurnedBack(now), later);
        } else {
          later := t.(phase := SuccessorReady);
          o := Persist(Advanced(SuccessorReady), later);
        }
      }
    }

    /**
     * Runs or resumes a transition. Whatever fails, at most six durable writes are made, and the record is gone only
     * if the manager holds the target choice, or the choice it held before a transition that was turned back.
     */
    method Transit(requested: Option<Kind>, observed: Option<StateIdentity>, expected: Option<string>,
                   now: Millis, later: Millis, uuid: string) returns (o: Outcome<LifecycleError>)
      requires Valid() && IsUuid(uuid)
      modifies this
      ensures Valid() && Grew() && writes <= old(writes) + 6
      ensures !Serves(old(disk), requested, observed) ==> o.Fail? && disk == old(disk) && writes == old(writes)
      ensures o.Pass? ==> disk.record.None? && (requested.Some? ==> disk.manager == requested.value.Enable?)
      ensures o.Pass? ==> disk.acknowledged == Some(disk.manager)
      ensures old(disk).record.Some? && disk.record.Some? ==> SameTransition(old(disk).record.value, disk.record.value)
      ensures old(disk).record.Some? && disk.record.None? ==>
                && (|| disk.manager == old(disk).record.value.targetEnabled
                    || disk.manager == old(disk).record.value.priorEnabled)
                && (o.Pass? ==> disk.manager == old(disk).record.value.targetEnabled)
                && (o == Fail(Readiness) ==> disk.manager == old(disk).record.value.priorEnabled)
      ensures old(disk).record.None? && disk.record.None? && o == Fail(Readiness) ==> disk.manager == old(disk).manager
      ensures !faulty && Serves(old(disk), requested, observed) ==>
                && disk.record.None?
                && (o.Pass? <==> old(disk).record.Some? ==> old(disk).record.value.disposition.Forward?)
      ensures old(disk).record.Some? && observed.Some? && observed.value != old(disk).record.value.state ==>
                o == Fail(InvalidRecord) && disk == old(disk) && writes == old(writes)
      ensures old(disk).record.Some? && requested.Some? && requested.value != old(disk).record.value.kind ==>
                o.Fail? && disk == old(disk) && writes == old(writes)
      ensures observed.None? || (old(disk).record.None? && requested.None?) ==>
                o.Fail? && disk == old(disk) && writes == old(writes)
      ensures !faulty && old(disk).record.Some? && observed == Some(old(disk).record.value.state)
              && (requested.None? || requested.value == old(disk).record.value.kind) ==>
                disk.record.None? && (o.Pass? <==> old(disk).record.value.disposition.Forward?)
      ensures !faulty && old(disk).record.None? && observed.Some? && requested.Some? ==> disk.record.None? && o.Pass?
      ensures old(disk).record.None? && disk.record.Some? ==>
                observed == Some(disk.record.value.state) && requested == Some(disk.record.value.kind)
    {
      var t: Transition;
      o, t := Acquire(requested, observed, expected, now, uuid);
      if o.Fail? {
        return;
      }
      ghost var begun := t;
      ghost var budget := writes + WritesLeft(t);
      while t.disposition.Forward? && !IsLast(t)
        invariant Valid() && Grew() && o.Pass? && disk.record == Some(t) && SameTransition(begun, t)
        invariant writes + WritesLeft(t) <= budget
        invariant !faulty ==> t.disposition == begun.disposition
        decreases WritesLeft(t)
      {
        o, t := ForwardTurn(t, later);
        if o.Fail? {
          return;
        }
      }
      if t.disposition.Rollback? {
        o := ResumeRollback(t);
      } else {
        o := Conclude(t);
      }
    }
  }
}
