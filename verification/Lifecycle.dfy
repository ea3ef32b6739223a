/**
 * The background-mode transition as a transition system: one durable record, the user's manager, the acknowledgement
 * kept for the package controller. Losing the process between two steps is a crash; the next process resumes from the
 * record.
 */
module Lifecycle {
  import opened Integers
  import opened Runs
  import opened Wrappers
  import opened Text

  type Millis = U64

  datatype Kind = Enable | Disable
  datatype Disposition = Forward | Rollback
  datatype Phase = IntentRecorded | SourceStopped | ManagerEnabled | SuccessorReady | PublisherStopped
                 | ManagerDisabled | RollbackTargetStopped | PriorChoiceRestored

  datatype StateIdentity = StateIdentity(path: string, device: nat, inode: nat)

  datatype Transition = Transition(generation: string, kind: Kind, disposition: Disposition, phase: Phase,
                                   priorEnabled: bool, targetEnabled: bool, state: StateIdentity,
                                   expectedInstance: Option<string>, created: Millis,
                                   graceful: Millis, force: Millis, control: Millis)

  datatype World = World(record: Option<Transition>, manager: bool, acknowledged: Option<bool>)

  datatype EffectOp = StopPublishers | EnableAndStart | WaitUntilReady | DisableAndStop | RestorePrior | BeforeClear

  datatype Event =
    | Created(transition: Transition)
    | Renewed(now: Millis)
    | Advanced(phase: Phase)
    | TurnedBack(now: Millis)
    | Cleared
    | EffectRun(op: EffectOp)
    | ChoiceMade(enable: bool)      // the user or the package controller, while no transition is on record

  function WithDeadlines(t: Transition, now: Millis): Transition {
    t.(graceful := SaturatingAdd(now, 35_000), force := SaturatingAdd(now, 40_000),
       control := SaturatingAdd(now, 45_000))
  }

  /** Which child process may start while this record is there, and which when there is none. */
  predicate AdmitsChild(record: Option<Transition>, generation: Option<string>) {
    match record
    case None => generation.None?
    case Some(r) =>
      && generation == Some(r.generation)
      && r.kind.Enable?
      && match r.disposition
         case Forward => r.phase.SourceStopped? || r.phase.ManagerEnabled? || r.phase.SuccessorReady?
         case Rollback => r.priorEnabled && (r.phase.RollbackTargetStopped? || r.phase.PriorChoiceRestored?)
  }

  // ---- steps ----

  predicate IsFresh(w: World, t: Transition) {
    && t.disposition.Forward? && t.phase.IntentRecorded?
    && t.priorEnabled == w.manager && t.targetEnabled == t.kind.Enable?
    && IsUuid(t.generation) && t == WithDeadlines(t, t.created)
  }

  /** The phase that the next successful effect leads to. */
  function NextPhase(t: Transition): Option<Phase> {
    match (t.kind, t.disposition, t.phase)
    case (Enable, Forward, IntentRecorded) => Some(SourceStopped)
    case (Enable, Forward, SourceStopped) => Some(ManagerEnabled)
    case (Enable, Forward, ManagerEnabled) => Some(SuccessorReady)
    case (Disable, Forward, IntentRecorded) => Some(PublisherStopped)
    case (Disable, Forward, PublisherStopped) => Some(ManagerDisabled)
    case (Enable, Rollback, ManagerEnabled) => Some(RollbackTargetStopped)
    case (Enable, Rollback, RollbackTargetStopped) => Some(PriorChoiceRestored)
    case _ => None
  }

  /** The choice that the manager must hold before a phase may be written. */
  predicate PhaseEarned(w: World, t: Transition, phase: Phase) {
    match phase
    case ManagerEnabled => w.manager
    case ManagerDisabled => !w.manager
    case PriorChoiceRestored => w.manager == t.priorEnabled
    case _ => true
  }

  predicate IsLast(t: Transition) {
    match (t.kind, t.disposition)
    case (Enable, Forward) => t.phase.SuccessorReady?
    case (Disable, Forward) => t.phase.ManagerDisabled?
    case (_, Rollback) => t.phase.PriorChoiceRestored?
  }

  predicate MayRun(t: Transition, op: EffectOp) {
    match op
    case StopPublishers =>
      if t.disposition.Rollback? then t.kind.Enable? && t.phase.ManagerEnabled? else t.phase.IntentRecorded?
    case EnableAndStart => t.kind.Enable? && t.disposition.Forward? && t.phase.SourceStopped?
    case WaitUntilReady =>
      if t.disposition.Rollback? then t.kind.Enable? && t.phase.PriorChoiceRestored? && t.priorEnabled
      else t.kind.Enable? && t.phase.ManagerEnabled?
    case DisableAndStop => t.kind.Disable? && t.phase.PublisherStopped?
    case RestorePrior => t.kind.Enable? && t.disposition.Rollback? && t.phase.RollbackTargetStopped?
    case BeforeClear => IsLast(t)
  }

  function Applied(w: World, t: Transition, op: EffectOp): World {
    match op
    case EnableAndStart => w.(manager := true)
    case DisableAndStop => w.(manager := false)
    case RestorePrior => w.(manager := t.priorEnabled)
    case BeforeClear => w.(acknowledged := Some(w.manager))
    case _ => w
  }

  ghost predicate Step(w: World, e: Event, w': World) {
    match e
    case Created(t) => w.record.None? && IsFresh(w, t) && w' == w.(record := Some(t))
    case Renewed(now) => w.record.Some? && w' == w.(record := Some(WithDeadlines(w.record.value, now)))
    case Advanced(phase) =>
      && w.record.Some? && NextPhase(w.record.value) == Some(phase) && PhaseEarned(w, w.record.value, phase)
      && w' == w.(record := Some(w.record.value.(phase := phase)))
    case TurnedBack(now) =>
      && w.record.Some? && w.record.value.kind.Enable? && w.record.value.disposition.Forward?
      && w.record.value.phase.ManagerEnabled?
      && w' == w.(record := Some(WithDeadlines(w.record.value.(disposition := Rollback), now)))
    case Cleared =>
      w.record.Some? && IsLast(w.record.value) && w.acknowledged == Some(w.manager) && w' == w.(record := None)
    case EffectRun(op) =>
      w.record.Some? && MayRun(w.record.value, op) && (w' == w || w' == Applied(w, w.record.value, op))
    case ChoiceMade(enable) => w.record.None? && w' == w.(manager := enable)
  }

  // ---- invariant ----

  predicate Reachable(kind: Kind, disposition: Disposition, phase: Phase) {
    match (kind, disposition)
    case (Enable, Forward) =>
      phase.IntentRecorded? || phase.SourceStopped? || phase.ManagerEnabled? || phase.SuccessorReady?
    case (Enable, Rollback) => phase.ManagerEnabled? || phase.RollbackTargetStopped? || phase.PriorChoiceRestored?
    case (Disable, Forward) => phase.IntentRecorded? || phase.PublisherStopped? || phase.ManagerDisabled?
    case (Disable, Rollback) => false
  }

  /** What the phase says about the manager. */
  predicate ManagerInv(w: World, t: Transition) {
    match (t.kind, t.disposition)
    case (Enable, Forward) =>
      if t.phase.IntentRecorded? then w.manager == t.priorEnabled
      else (t.phase.ManagerEnabled? || t.phase.SuccessorReady?) ==> w.manager
    case (Disable, Forward) =>
      if t.phase.IntentRecorded? then w.manager == t.priorEnabled else t.phase.ManagerDisabled? ==> !w.manager
    case (_, Rollback) => t.phase.PriorChoiceRestored? ==> w.manager == t.priorEnabled
  }

  predicate Inv(w: World) {
    w.record.Some? ==>
      && Reachable(w.record.value.kind, w.record.value.disposition, w.record.value.phase)
      && w.record.value.targetEnabled == w.record.value.kind.Enable?
      && IsUuid(w.record.value.generation)
      && ManagerInv(w, w.record.value)
  }

  lemma StepKeepsInv(w: World, e: Event, w': World)
    requires Inv(w) && Step(w, e, w')
    ensures Inv(w')
  {
  }

  // ---- runs ----

  type History = Run<World, Event>

  /** Any sequence of steps from a machine without a transition. */
  ghost predicate IsRun(run: History) {
    Follows(run, Step) && run.worlds[0].record.None?
  }

  ghost function Extend(run: History, e: Event, w: World): (later: History)
    requires IsRun(run) && Step(Last(run), e, w)
    ensures IsRun(later) && Last(later) == w && Continues(run, later)
  {
    Append(run, Step, e, w)
  }

  lemma {:induction false} RunKeepsInv(run: History, n: nat)
    requires IsRun(run) && n < |run.worlds|
    ensures Inv(run.worlds[n])
  {
    if n > 0 {
      RunKeepsInv(run, n - 1);
      assert StepAt(run, Step, n - 1);
      StepKeepsInv(run.worlds[n - 1], run.events[n - 1], run.worlds[n]);
    }
  }

  /** The two records differ at most in phase, disposition and deadlines. */
  predicate SameTransition(t: Transition, later: Transition) {
    later == t.(disposition := later.disposition, phase := later.phase, graceful := later.graceful,
                force := later.force, control := later.control)
  }

  ghost predicate Uncleared(run: History, i: nat, j: nat)
    requires i <= j <= |run.events|
  {
    forall n :: i <= n < j ==> !run.events[n].Cleared?
  }

  /** From its creation until it is cleared, only a transition's phase, disposition and deadlines change. */
  lemma {:induction false} TransitionIsStable(run: History, i: nat, j: nat)
    requires IsRun(run) && i <= j <= |run.events| && Uncleared(run, i, j) && run.worlds[i].record.Some?
    ensures run.worlds[j].record.Some? && SameTransition(run.worlds[i].record.value, run.worlds[j].record.value)
  {
    if i < j {
      TransitionIsStable(run, i, j - 1);
      assert StepAt(run, Step, j - 1);
    }
  }

  /**
   * A transition that was begun at `i` and is cleared at `j` leaves the manager at its target, or, turned back, at
   * the choice the manager held when the transition was begun; and that choice is the one acknowledged.
   */
  lemma ClearedAtTargetOrPrior(run: History, i: nat, j: nat)
    requires IsRun(run) && i < j < |run.events| && Uncleared(run, i, j)
    requires run.events[i].Created? && run.events[j].Cleared?
    ensures run.worlds[j].record.Some? && run.worlds[j + 1].record.None?
    ensures run.worlds[j + 1].manager ==
              if run.worlds[j].record.value.disposition.Rollback? then run.worlds[i].manager
              else run.events[i].transition.kind.Enable?
    ensures run.worlds[j + 1].acknowledged == Some(run.worlds[j + 1].manager)
  {
    assert StepAt(run, Step, i) && StepAt(run, Step, j);
    TransitionIsStable(run, i + 1, j);
    RunKeepsInv(run, j);
  }

  /**
   * Whenever an effect that starts the provider is run, the record admits exactly the children of its own generation;
   * whenever one that stops it is run, no child whatever is admitted.
   */
  lemma EffectsMatchAdmission(run: History, n: nat, generation: Option<string>)
    requires IsRun(run) && n < |run.events| && run.events[n].EffectRun?
    ensures run.worlds[n].record.Some?
    ensures var r := run.worlds[n].record.value;
            match run.events[n].op
            case EnableAndStart => AdmitsChild(Some(r), generation) <==> generation == Some(r.generation)
            case WaitUntilReady => AdmitsChild(Some(r), generation) <==> generation == Some(r.generation)
            case RestorePrior =>
              AdmitsChild(Some(r), generation) <==> r.priorEnabled && generation == Some(r.generation)
            case StopPublishers => !AdmitsChild(Some(r), generation)
            case DisableAndStop => !AdmitsChild(Some(r), generation)
            case BeforeClear => AdmitsChild(Some(r), generation) ==> run.worlds[n].manager
  {
    assert StepAt(run, Step, n);
    RunKeepsInv(run, n);
  }

  /**
   * A child of the transition's own generation may start once the publishers are stopped for it: on the way to the
   * successor at any later point, and on the way back if the provider was enabled before. No other child may.
   */
  lemma AdmittedOnTheWay(w: World, generation: Option<string>)
    requires Inv(w) && w.record.Some?
    ensures var t := w.record.value;
            AdmitsChild(Some(t), generation) <==>
            && generation == Some(t.generation) && t.kind == Enable
            && if t.disposition == Forward then t.phase != IntentRecorded
               else t.priorEnabled && t.phase != ManagerEnabled
    ensures AdmitsChild(None, generation) <==> generation == None
  {
  }

  // ---- exactly the reachable phases ----

  ghost predicate Occurs(kind: Kind, disposition: Disposition, phase: Phase) {
    exists run :: IsRun(run) && EndsIn(run, kind, disposition, phase)
  }

  ghost predicate EndsIn(run: History, kind: Kind, disposition: Disposition, phase: Phase)
    requires IsRun(run)
  {
    && Last(run).record.Some? && Last(run).record.value.kind == kind
    && Last(run).record.value.disposition == disposition && Last(run).record.value.phase == phase
  }

  ghost function Begun(kind: Kind): (run: History)
    ensures IsRun(run) && EndsIn(run, kind, Forward, IntentRecorded)
  {
    var uuid := "00000000000000000000000000000000";
    var t := WithDeadlines(Transition(uuid, kind, Forward, IntentRecorded, false, kind.Enable?,
                                      StateIdentity("", 0, 0), None, 0, 0, 0, 0), 0);
    Extend(Start(World(None, false, None)), Created(t), World(Some(t), false, None))
  }

  /** Runs the effect that the record calls for, successfully, and records it. */
  ghost function Onward(run: History, op: EffectOp): (later: History)
    requires IsRun(run) && Last(run).record.Some? && MayRun(Last(run).record.value, op)
    requires NextPhase(Last(run).record.value).Some?
    requires PhaseEarned(Applied(Last(run), Last(run).record.value, op), Last(run).record.value,
                         NextPhase(Last(run).record.value).value)
    ensures IsRun(later)
    ensures Last(later) == Applied(Last(run), Last(run).record.value, op).(record :=
                             Some(Last(run).record.value.(phase := NextPhase(Last(run).record.value).value)))
  {
    var r := Last(run).record.value;
    var applied := Extend(run, EffectRun(op), Applied(Last(run), r, op));
    Extend(applied, Advanced(NextPhase(r).value), Last(applied).(record := Some(r.(phase := NextPhase(r).value))))
  }

  lemma Witness(kind: Kind, disposition: Disposition, phase: Phase) returns (run: History)
    requires Reachable(kind, disposition, phase)
    ensures IsRun(run) && EndsIn(run, kind, disposition, phase)
  {
    run := Begun(kind);
    if kind.Disable? {
      if !phase.IntentRecorded? {
        run := Onward(run, StopPublishers);
        if !phase.PublisherStopped? {
          run := Onward(run, DisableAndStop);
        }
      }
    } else if !phase.IntentRecorded? {
      run := Onward(run, StopPublishers);
      if !phase.SourceStopped? {
        run := Onward(run, EnableAndStart);
        if phase.SuccessorReady? {
          run := Onward(run, WaitUntilReady);
        } else if disposition.Rollback? {
          run := WitnessBack(run, phase);
        }
      }
    }
  }

  lemma WitnessBack(forward: History, phase: Phase) returns (run: History)
    requires IsRun(forward) && EndsIn(forward, Enable, Forward, ManagerEnabled) && Reachable(Enable, Rollback, phase)
    ensures IsRun(run) && EndsIn(run, Enable, Rollback, phase)
  {
    var r := Last(forward).record.value;
    var back := WithDeadlines(r.(disposition := Rollback), 0);
    run := Extend(forward, TurnedBack(0), Last(forward).(record := Some(back)));
    if !phase.ManagerEnabled? {
      run := Onward(run, StopPublishers);
      if !phase.RollbackTargetStopped? {
        run := Onward(run, RestorePrior);
      }
    }
  }

  /** Ten combinations of kind, disposition and phase occur, and no other. */
  lemma OccursIffReachable(kind: Kind, disposition: Disposition, phase: Phase)
    ensures Occurs(kind, disposition, phase) <==> Reachable(kind, disposition, phase)
  {
    if Reachable(kind, disposition, phase) {
      var run := Witness(kind, disposition, phase);
    }
    if Occurs(kind, disposition, phase) {
      var run :| IsRun(run) && EndsIn(run, kind, disposition, phase);
      RunKeepsInv(run, |run.worlds| - 1);
    }
  }
}
