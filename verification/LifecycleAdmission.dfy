/**
 * The locks of the background-mode store: one control lock, held for a whole attempt, and one admission lock, shared
 * by jobs and children and taken exclusively for each write of the record. Any number of processes interleave.
 */
module LifecycleAdmission {
  import opened Runs
  import opened Wrappers
  import opened Lifecycle

  type Pid = nat

  /** What a process does with the admission lock. */
  datatype Gate = Free | Reading | Guarding | Writing

  datatype Place = Place(control: bool, gate: Gate)

  datatype State = State(places: map<Pid, Place>, world: World)

  datatype Move = TakeControl | Share | EnterJob | AskChild(generation: Option<string>) | Own | DropGate | Leave
                | Write(event: Event) | Act(event: Event)

  function At(s: State, p: Pid): Place {
    if p in s.places then s.places[p] else Place(false, Free)
  }

  function Moved(s: State, p: Pid, x: Place): State {
    s.(places := s.places[p := x])
  }

  ghost predicate ControlFree(s: State) {
    forall q :: !At(s, q).control
  }

  ghost predicate Shareable(s: State) {
    forall q :: !At(s, q).gate.Writing?
  }

  ghost predicate GateFree(s: State) {
    forall q :: At(s, q).gate.Free?
  }

  predicate IsRecordWrite(e: Event) {
    e.Created? || e.Renewed? || e.Advanced? || e.TurnedBack? || e.Cleared?
  }

  ghost predicate LockStep(s: State, p: Pid, m: Move, s': State) {
    var x := At(s, p);
    match m
    case TakeControl => !x.control && x.gate.Free? && ControlFree(s) && s' == Moved(s, p, x.(control := true))
    case Share => x.gate.Free? && Shareable(s) && s' == Moved(s, p, x.(gate := Reading))
    case EnterJob =>
      x.gate.Reading? && s' == Moved(s, p, x.(gate := if s.world.record.None? then Guarding else Free))
    case AskChild(_) => x.gate.Reading? && s' == Moved(s, p, x.(gate := Free))
    case Own => x.control && x.gate.Free? && GateFree(s) && s' == Moved(s, p, x.(gate := Writing))
    case DropGate => s' == Moved(s, p, x.(gate := Free))
    case Leave => s' == Moved(s, p, Place(false, Free))
    case Write(e) =>
      x.gate.Writing? && IsRecordWrite(e) && s' == s.(world := s'.world) && Step(s.world, e, s'.world)
    case Act(e) =>
      && (e.EffectRun? ==> x.control && x.gate.Free?) && (e.EffectRun? || e.ChoiceMade?)
      && s' == s.(world := s'.world) && Step(s.world, e, s'.world)
  }

  ghost predicate LockInv(s: State) {
    && (forall p, q :: At(s, p).control && At(s, q).control ==> p == q)
    && (forall p, q :: At(s, p).gate.Writing? && !At(s, q).gate.Free? ==> p == q)
    && (forall p :: At(s, p).gate.Writing? ==> At(s, p).control)
    && (forall p :: At(s, p).gate.Guarding? ==> s.world.record.None?)
  }

  lemma LockStepKeeps(s: State, p: Pid, m: Move, s': State)
    requires LockInv(s) && LockStep(s, p, m, s')
    ensures LockInv(s')
  {
    if m.Write? || m.Act? {
      assert forall q :: At(s', q) == At(s, q);
    } else {
      assert forall q :: q != p ==> At(s', q) == At(s, q);
    }
  }

  datatype LockRun = LockRun(states: seq<State>, movers: seq<Pid>, moves: seq<Move>)

  ghost predicate MoveAt(run: LockRun, n: nat)
    requires n < |run.moves| == |run.movers| && |run.states| == |run.moves| + 1
  {
    LockStep(run.states[n], run.movers[n], run.moves[n], run.states[n + 1])
  }

  ghost predicate IsLockRun(run: LockRun) {
    && |run.movers| == |run.moves| && |run.states| == |run.moves| + 1
    && run.states[0].places == map[] && run.states[0].world.record.None?
    && forall n :: 0 <= n < |run.moves| ==> MoveAt(run, n)
  }

  lemma {:induction false} LockRunKeepsInv(run: LockRun, n: nat)
    requires IsLockRun(run) && n < |run.states|
    ensures LockInv(run.states[n])
  {
    if n > 0 {
      LockRunKeepsInv(run, n - 1);
      assert MoveAt(run, n - 1);
      LockStepKeeps(run.states[n - 1], run.movers[n - 1], run.moves[n - 1], run.states[n]);
    }
  }

  /** A live job guard and a transition record never coexist. */
  lemma GuardExcludesTransition(run: LockRun, n: nat, p: Pid)
    requires IsLockRun(run) && n < |run.states| && At(run.states[n], p).gate.Guarding?
    ensures run.states[n].world.record.None?
  {
    LockRunKeepsInv(run, n);
  }

  /** Whoever changes the record holds the control lock alone, and nobody is looking at it meanwhile. */
  lemma RecordChangesUnobserved(run: LockRun, n: nat, q: Pid)
    requires IsLockRun(run) && n < |run.moves|
    requires run.states[n].world.record != run.states[n + 1].world.record
    ensures At(run.states[n], run.movers[n]).control
    ensures q != run.movers[n] ==> !At(run.states[n], q).control && At(run.states[n], q).gate.Free?
  {
    LockRunKeepsInv(run, n);
    assert MoveAt(run, n);
  }

  /** Seen through the locks, the world goes through a run of the transition system: its theorems hold here too. */
  lemma {:induction false} LockRunRefinesRun(run: LockRun, n: nat) returns (plain: History)
    requires IsLockRun(run) && n < |run.states|
    ensures IsRun(plain) && Last(plain) == run.states[n].world
  {
    if n == 0 {
      plain := Start(run.states[0].world);
    } else {
      plain := LockRunRefinesRun(run, n - 1);
      assert MoveAt(run, n - 1);
      var m := run.moves[n - 1];
      if m.Write? || m.Act? {
        plain := Extend(plain, m.event, run.states[n].world);
      }
    }
  }

  /**
   * A child told that it may start is told so under the record of its own generation, or when there is none; in the
   * first case no job is running, and in both nobody is writing.
   */
  lemma AdmittedChildIsExpected(run: LockRun, n: nat)
    requires IsLockRun(run) && n < |run.moves| && run.moves[n].AskChild?
    requires AdmitsChild(run.states[n].world.record, run.moves[n].generation)
    ensures run.states[n + 1].world == run.states[n].world
    ensures run.states[n].world.record.Some? ==>
              && run.moves[n].generation == Some(run.states[n].world.record.value.generation)
              && run.states[n].world.record.value.kind.Enable?
              && (run.states[n].world.record.value.disposition.Rollback? ==>
                    run.states[n].world.record.value.priorEnabled)
    ensures forall p :: !At(run.states[n], p).gate.Writing?
    ensures run.states[n].world.record.Some? ==> forall p :: !At(run.states[n], p).gate.Guarding?
  {
    LockRunKeepsInv(run, n);
    assert MoveAt(run, n);
  }

  ghost function Then(run: LockRun, p: Pid, m: Move, s: State): (later: LockRun)
    requires IsLockRun(run) && LockStep(run.states[|run.moves|], p, m, s)
    ensures IsLockRun(later) && later.states[|later.moves|] == s && run.states <= later.states
  {
    var later := LockRun(run.states + [s], run.movers + [p], run.moves + [m]);
    assert forall n :: 0 <= n < |run.moves| ==> MoveAt(run, n) ==> MoveAt(later, n);
    assert MoveAt(later, |run.moves|);
    later
  }

  /** One process has the control lock and everybody else is away. */
  ghost predicate Alone(s: State) {
    s.places == map[0 := Place(true, Free)]
  }

  lemma OneMore(run: LockRun, e: Event, w: World) returns (later: LockRun)
    requires IsLockRun(run) && Alone(run.states[|run.moves|]) && Step(run.states[|run.moves|].world, e, w)
    ensures IsLockRun(later) && Alone(later.states[|later.moves|]) && later.states[|later.moves|].world == w
    ensures run.states <= later.states
  {
    var s := run.states[|run.moves|];
    if e.EffectRun? || e.ChoiceMade? {
      later := Then(run, 0, Act(e), s.(world := w));
    } else {
      var own := Moved(s, 0, Place(true, Writing));
      later := Then(run, 0, Own, own);
      later := Then(later, 0, Write(e), own.(world := w));
      later := Then(later, 0, DropGate, Moved(own.(world := w), 0, Place(true, Free)));
      assert later.states[|later.moves|].places == s.places;
    }
  }

  /** And every run of the transition system is one that a single process can go through under the locks. */
  lemma {:induction false} RunHasLockRun(plain: History, n: nat) returns (run: LockRun)
    requires IsRun(plain) && n < |plain.worlds|
    ensures IsLockRun(run) && run.states[0].world == plain.worlds[0]
    ensures Alone(run.states[|run.moves|]) && run.states[|run.moves|].world == plain.worlds[n]
  {
    if n == 0 {
      var s := State(map[], plain.worlds[0]);
      run := Then(LockRun([s], [], []), 0, TakeControl, Moved(s, 0, Place(true, Free)));
    } else {
      run := RunHasLockRun(plain, n - 1);
      assert StepAt(plain, Step, n - 1);
      run := OneMore(run, plain.events[n - 1], plain.worlds[n]);
    }
  }

  // ---- what the locks let happen ----

  /**
   * A job comes and goes; then a process takes both locks and writes the first record of a transition; then a child
   * asks, and, while it is asking, nobody can write.
   */
  function SharedRun(w: World, t: Transition, child: Option<string>): LockRun {
    var s0 := State(map[], w);
    var s1 := Moved(s0, 1, Place(false, Reading));
    var s2 := Moved(s1, 1, Place(false, Guarding));
    var s3 := Moved(s2, 1, Place(false, Free));
    var s4 := Moved(s3, 0, Place(true, Free));
    var s5 := Moved(s4, 0, Place(true, Writing));
    var s6 := s5.(world := w.(record := Some(t)));
    var s7 := Moved(s6, 0, Place(true, Free));
    var s8 := Moved(s7, 2, Place(false, Reading));
    var s9 := Moved(s8, 2, Place(false, Free));
    LockRun([s0, s1, s2, s3, s4, s5, s6, s7, s8, s9], [1, 1, 1, 0, 0, 0, 0, 2, 2],
            [Share, EnterJob, DropGate, TakeControl, Own, Write(Created(t)), DropGate, Share, AskChild(child)])
  }

  lemma SharedRunStarts(w: World, t: Transition, child: Option<string>, n: nat)
    requires w.record.None? && IsFresh(w, t) && n < 5
    ensures MoveAt(SharedRun(w, t, child), n)
  {
  }

  lemma SharedRunGoesOn(w: World, t: Transition, child: Option<string>, n: nat)
    requires w.record.None? && IsFresh(w, t) && 5 <= n < 9
    ensures MoveAt(SharedRun(w, t, child), n)
  {
  }

  /** Whatever the transition, the locks let jobs in while there is none, its owner write, and children ask. */
  lemma LocksLetEverybodyIn(w: World, t: Transition, child: Option<string>) returns (run: LockRun)
    requires w.record.None? && IsFresh(w, t)
    ensures IsLockRun(run) && |run.states| == 10 && run.states[0].world == w
    ensures At(run.states[2], 1).gate.Guarding? && At(run.states[5], 0) == Place(true, Writing)
    ensures run.states[6].world.record == Some(t) && At(run.states[8], 2).gate.Reading?
  {
    run := SharedRun(w, t, child);
    forall n | 0 <= n < 9
      ensures MoveAt(run, n)
    {
      if n < 5 {
        SharedRunStarts(w, t, child, n);
      } else {
        SharedRunGoesOn(w, t, child, n);
      }
    }
  }
}
