/**
 * Job and startup admission against the controller, at the level of locks. Any number of processes interleave; each
 * step takes or releases one file lock, reads one file, or writes. A process that crashes loses its locks.
 */
module PackageAdmission {
  import opened Wrappers
  import opened PackageTypes
  import opened PackageWorld
  import opened PackageConditions

  type Pid = nat

  /** Who asks to be admitted. */
  datatype Caller = Job | Startup(uid: Uid, appDataRoot: string, runtimeRoot: string)

  /** How far a process has got; the locks it holds follow from it. */
  datatype Place =
    | Outside
    | AtIntent(caller: Caller)                        // quiesce shared
    | PastIntent(caller: Caller)                      // quiesce shared, no intent seen
    | AtRecord(caller: Caller)                        // and package shared
    | Guard(caller: Caller, seen: Option<Record>)     // admitted; keeps both
    | WithController                                  // controller
    | Preparing                                       // and quiesce exclusive
    | Running                                         // and package exclusive
    | Loosened(record: Record)                        // package released for a restore
    | Apart(record: Record)                           // quiesce released as well
    | Returning(record: Record)                       // quiesce taken again
    | Rechecking(record: Record)                      // package taken again
    | Intruding                                       // a writer with the quiesce lock but not the controller lock

  datatype State = State(places: map<Pid, Place>, record: Option<Record>, intent: Option<QuiesceIntent>,
                         directories: map<Uid, Identity>, misplaced: set<Uid>)

  datatype Event = Enter(caller: Caller) | ReadIntent | SharePackage | Decide | Leave
                 | TakeController | TakeQuiesce | TakePackage
                 | Write(record: Option<Record>, intent: Option<QuiesceIntent>)
                 | ReleasePackage | ReleaseQuiesce | RetakeQuiesce | RetakePackage | Recheck
                 | Intrude | SessionChange(directories: map<Uid, Identity>, misplaced: set<Uid>)

  predicate HoldsController(x: Place) {
    x.WithController? || x.Preparing? || x.Running? || x.Loosened? || x.Apart? || x.Returning? || x.Rechecking?
  }

  predicate SharesQuiesce(x: Place) {
    x.AtIntent? || x.PastIntent? || x.AtRecord? || x.Guard?
  }

  predicate OwnsQuiesce(x: Place) {
    x.Preparing? || x.Running? || x.Loosened? || x.Returning? || x.Rechecking? || x.Intruding?
  }

  predicate SharesPackage(x: Place) {
    x.AtRecord? || x.Guard?
  }

  predicate OwnsPackage(x: Place) {
    x.Running? || x.Rechecking?
  }

  function At(s: State, p: Pid): Place {
    if p in s.places then s.places[p] else Outside
  }

  function Moved(s: State, p: Pid, x: Place): State {
    s.(places := s.places[p := x])
  }

  // ---- locks ----

  ghost predicate ControllerFree(s: State) {
    forall q :: !HoldsController(At(s, q))
  }

  ghost predicate QuiesceShareable(s: State) {
    forall q :: !OwnsQuiesce(At(s, q))
  }

  ghost predicate QuiesceFree(s: State) {
    forall q :: !OwnsQuiesce(At(s, q)) && !SharesQuiesce(At(s, q))
  }

  ghost predicate PackageShareable(s: State) {
    forall q :: !OwnsPackage(At(s, q))
  }

  ghost predicate PackageFree(s: State) {
    forall q :: !OwnsPackage(At(s, q)) && !SharesPackage(At(s, q))
  }

  // ---- decisions ----

  predicate IsSuccessor(p: Participant, c: Caller)
    requires c.Startup?
  {
    && p.uid == c.uid && p.enabled && p.settlement.Pending?
    && p.profile.appDataRoot == c.appDataRoot && p.profile.runtimeRoot == c.runtimeRoot
  }

  /** The record is being settled, restores its users, and has this one still to come. */
  predicate NamesSuccessor(r: Record, c: Caller)
    requires c.Startup?
  {
    && Validate(r, r.kind, r.targetVersion) && Restoring(r) && r.phase.Settling?
    && exists i :: 0 <= i < |r.participants| && IsSuccessor(r.participants[i], c)
  }

  predicate DirectoriesMatch(s: State, r: Record, c: Caller)
    requires c.Startup?
  {
    && c.uid in s.directories && c.uid !in s.misplaced
    && exists i :: 0 <= i < |r.participants| && IsSuccessor(r.participants[i], c)
                   && r.participants[i].runtimeDevice == Some(s.directories[c.uid].device)
                   && r.participants[i].runtimeInode == Some(s.directories[c.uid].inode)
  }

  predicate Admitted(s: State, c: Caller) {
    || s.record.None?
    || (c.Startup? && NamesSuccessor(s.record.value, c) && DirectoriesMatch(s, s.record.value, c))
  }

  // ---- steps ----

  ghost predicate AdmissionStep(s: State, p: Pid, e: Event, s': State) {
    match e
    case Enter(c) => At(s, p).Outside? && QuiesceShareable(s) && s' == Moved(s, p, AtIntent(c))
    case ReadIntent =>
      At(s, p).AtIntent? && s' == Moved(s, p, if s.intent.Some? then Outside else PastIntent(At(s, p).caller))
    case SharePackage => At(s, p).PastIntent? && PackageShareable(s) && s' == Moved(s, p, AtRecord(At(s, p).caller))
    case Decide =>
      && At(s, p).AtRecord?
      && s' == Moved(s, p, if Admitted(s, At(s, p).caller) then Guard(At(s, p).caller, s.record) else Outside)
    case _ => false
  }

  ghost predicate ControllerStep(s: State, p: Pid, e: Event, s': State) {
    match e
    case TakeController => At(s, p).Outside? && ControllerFree(s) && s' == Moved(s, p, WithController)
    case TakeQuiesce => At(s, p).WithController? && QuiesceFree(s) && s' == Moved(s, p, Preparing)
    case TakePackage => At(s, p).Preparing? && PackageFree(s) && s' == Moved(s, p, Running)
    case ReleasePackage =>
      && At(s, p).Running? && s.record.Some? && Restoring(s.record.value) && s.record.value.phase.Settling?
      && s' == Moved(s, p, Loosened(s.record.value))
    case ReleaseQuiesce => At(s, p).Loosened? && s' == Moved(s, p, Apart(At(s, p).record))
    case RetakeQuiesce => At(s, p).Apart? && QuiesceFree(s) && s' == Moved(s, p, Returning(At(s, p).record))
    case RetakePackage => At(s, p).Returning? && PackageFree(s) && s' == Moved(s, p, Rechecking(At(s, p).record))
    case Recheck =>
      At(s, p).Rechecking? && s' == Moved(s, p, if Unchanged(s.record, At(s, p).record) then Running else Outside)
    case _ => false
  }

  /** `intruders` says whether a writer may do without the controller lock. */
  ghost predicate Step(s: State, p: Pid, e: Event, s': State, intruders: bool) {
    || AdmissionStep(s, p, e, s')
    || ControllerStep(s, p, e, s')
    || (e.Leave? && s' == Moved(s, p, Outside))
    || (e.SessionChange? && s' == s.(directories := e.directories, misplaced := e.misplaced))
    || (e.Write? && (At(s, p).Preparing? || At(s, p).Running? || At(s, p).Intruding?)
        && s' == s.(record := e.record, intent := e.intent))
    || (e.Intrude? && intruders && At(s, p).Outside? && QuiesceFree(s) && s' == Moved(s, p, Intruding))
  }

  // ---- invariant ----

  ghost predicate Exclusive(s: State) {
    && (forall p, q :: HoldsController(At(s, p)) && HoldsController(At(s, q)) ==> p == q)
    && (forall p, q :: OwnsQuiesce(At(s, p)) && (OwnsQuiesce(At(s, q)) || SharesQuiesce(At(s, q))) ==> p == q)
  }

  /** What a process has seen under the locks it still holds is still so. */
  predicate PlaceInv(s: State, x: Place) {
    match x
    case PastIntent(_) => s.intent.None?
    case AtRecord(_) => s.intent.None?
    case Guard(c, seen) =>
      s.intent.None? && s.record == seen && (seen.Some? ==> c.Startup? && NamesSuccessor(seen.value, c))
    case _ => IsRestoring(x) ==> x.record.phase.Settling?
  }

  predicate IsRestoring(x: Place) {
    x.Loosened? || x.Apart? || x.Returning? || x.Rechecking?
  }

  predicate RestoringInv(s: State, x: Place) {
    IsRestoring(x) ==> s.record == Some(x.record)
  }

  ghost predicate Inv(s: State, intruders: bool) {
    && Exclusive(s)
    && (forall p :: PlaceInv(s, At(s, p)))
    && (!intruders ==> forall p :: !At(s, p).Intruding? && RestoringInv(s, At(s, p)))
  }

  lemma MovedAt(s: State, p: Pid, x: Place)
    ensures forall q :: At(Moved(s, p, x), q) == if q == p then x else At(s, q)
  {
  }

  lemma AdmissionStepKeeps(s: State, p: Pid, e: Event, s': State, intruders: bool)
    requires Inv(s, intruders) && AdmissionStep(s, p, e, s')
    ensures Inv(s', intruders)
  {
    MovedAt(s, p, At(s', p));
    forall q ensures PlaceInv(s', At(s', q)) {
      assert PlaceInv(s, At(s, q)) && PlaceInv(s, At(s, p));
    }
  }

  lemma ControllerStepKeeps(s: State, p: Pid, e: Event, s': State, intruders: bool)
    requires Inv(s, intruders) && ControllerStep(s, p, e, s')
    ensures Inv(s', intruders)
  {
    MovedAt(s, p, At(s', p));
    forall q ensures PlaceInv(s', At(s', q)) {
      assert PlaceInv(s, At(s, q));
    }
    if !intruders {
      forall q ensures !At(s', q).Intruding? && RestoringInv(s', At(s', q)) {
        assert RestoringInv(s, At(s, q)) && RestoringInv(s, At(s, p));
      }
    }
  }

  /** A writer shares its files with nobody who has read them, and with nobody who is restoring. */
  lemma WriteKeeps(s: State, p: Pid, e: Event, s': State, intruders: bool)
    requires Inv(s, intruders) && e.Write? && s' == s.(record := e.record, intent := e.intent)
    requires At(s, p).Preparing? || At(s, p).Running? || At(s, p).Intruding?
    ensures Inv(s', intruders)
  {
    assert forall q :: At(s', q) == At(s, q);
    forall q ensures PlaceInv(s', At(s', q)) {
      assert OwnsQuiesce(At(s, p));
    }
    if !intruders {
      forall q ensures !At(s', q).Intruding? && RestoringInv(s', At(s', q)) {
        assert HoldsController(At(s, p));
      }
    }
  }

  lemma StepKeeps(s: State, p: Pid, e: Event, s': State, intruders: bool)
    requires Inv(s, intruders) && Step(s, p, e, s', intruders)
    ensures Inv(s', intruders)
  {
    if AdmissionStep(s, p, e, s') {
      AdmissionStepKeeps(s, p, e, s', intruders);
    } else if ControllerStep(s, p, e, s') {
      ControllerStepKeeps(s, p, e, s', intruders);
    } else if e.Write? {
      WriteKeeps(s, p, e, s', intruders);
    } else if e.SessionChange? {
      assert forall q :: At(s', q) == At(s, q);
      assert forall q :: PlaceInv(s', At(s', q)) <==> PlaceInv(s, At(s, q));
    } else {
      MovedAt(s, p, At(s', p));
      assert forall q :: q != p ==> (PlaceInv(s', At(s', q)) <==> PlaceInv(s, At(s, q)));
    }
  }

  // ---- runs ----

  datatype Run = Run(states: seq<State>, movers: seq<Pid>, events: seq<Event>, intruders: bool)

  ghost predicate StepAt(run: Run, n: nat)
    requires n < |run.events| == |run.movers| && |run.states| == |run.events| + 1
  {
    Step(run.states[n], run.movers[n], run.events[n], run.states[n + 1], run.intruders)
  }

  /** Starts with no process inside, whatever is on disk. */
  ghost predicate IsRun(run: Run) {
    && |run.movers| == |run.events| && |run.states| == |run.events| + 1
    && run.states[0].places == map[]
    && forall n :: 0 <= n < |run.events| ==> StepAt(run, n)
  }

  lemma {:induction false} RunKeepsInv(run: Run, n: nat)
    requires IsRun(run) && n < |run.states|
    ensures Inv(run.states[n], run.intruders)
  {
    if n > 0 {
      RunKeepsInv(run, n - 1);
      assert StepAt(run, n - 1);
      StepKeeps(run.states[n - 1], run.movers[n - 1], run.events[n - 1], run.states[n], run.intruders);
    }
  }

  /** While any process holds a job guard there is neither a record nor an intent, in every interleaving. */
  lemma JobGuardExcludesOperation(run: Run, n: nat, p: Pid)
    requires IsRun(run) && n < |run.states| && At(run.states[n], p).Guard? && At(run.states[n], p).caller.Job?
    ensures run.states[n].record.None? && run.states[n].intent.None?
  {
    RunKeepsInv(run, n);
    assert PlaceInv(run.states[n], At(run.states[n], p));
  }

  /**
   * While a startup guard admitted under a record is held, that very record is on disk, is settling, and still has
   * the guard's user as an enabled participant to come.
   */
  lemma StartupGuardPinsRecord(run: Run, n: nat, p: Pid)
    requires IsRun(run) && n < |run.states| && At(run.states[n], p).Guard?
    ensures run.states[n].intent.None? && run.states[n].record == At(run.states[n], p).seen
    ensures run.states[n].record.Some? ==>
              && At(run.states[n], p).caller.Startup?
              && NamesSuccessor(run.states[n].record.value, At(run.states[n], p).caller)
  {
    RunKeepsInv(run, n);
    assert PlaceInv(run.states[n], At(run.states[n], p));
  }

  /** The files and directories are those of the world. */
  predicate Shows(s: State, w: World) {
    s.record == w.record && s.intent == w.intent && s.directories == w.runtime && s.misplaced == w.misplaced
  }

  /**
   * What the startup decision looks at is what a provider's start requires in the transition system: a logged-in
   * user's provider may start exactly if the decision admits a caller of that user.
   */
  lemma AdmittedIffMayStart(s: State, w: World, uid: Uid)
    requires Shows(s, w) && s.intent.None? && uid in w.runtime
    requires w.record.Some? ==> Validate(w.record.value, w.record.value.kind, w.record.value.targetVersion)
    ensures AdmitsStart(w, uid) <==> exists c: Caller :: c.Startup? && c.uid == uid && Admitted(s, c)
  {
    if w.record.None? {
      assert Admitted(s, Startup(uid, "", ""));
    } else if AdmitsSuccessor(w, w.record.value, uid) {
      var r := w.record.value;
      var i :| 0 <= i < |r.participants| && r.participants[i].uid == uid
               && r.participants[i].enabled && r.participants[i].settlement.Pending?
               && DirectoriesValid(w, r.participants[i]);
      var c := Startup(uid, r.participants[i].profile.appDataRoot, r.participants[i].profile.runtimeRoot);
      assert IsSuccessor(r.participants[i], c);
      assert Admitted(s, c);
    }
  }

  /**
   * Whoever asks, and with whatever directories: under a record it is admitted exactly if the record restores its
   * users, is settling, and has this user, enabled and still to be settled, with just these directories, of which the
   * runtime directory is the recorded one. Where there is no record everybody is.
   */
  lemma AdmittedByContent(s: State, c: Caller)
    requires s.record.Some? ==> Validate(s.record.value, s.record.value.kind, s.record.value.targetVersion)
    ensures Admitted(s, c) <==>
            || s.record.None?
            || (&& c.Startup? && s.record.value.phase.Settling?
                && (|| s.record.value.kind.Upgrade? || s.record.value.kind.Reinstall?
                    || (s.record.value.kind.Remove? && s.record.value.disposition.Rollback?))
                && c.uid in s.directories && c.uid !in s.misplaced
                && var ps := s.record.value.participants;
                   exists i :: 0 <= i < |ps| && ps[i].uid == c.uid && ps[i].enabled && ps[i].settlement == Pending
                               && ps[i].profile.appDataRoot == c.appDataRoot
                               && ps[i].profile.runtimeRoot == c.runtimeRoot
                               && ps[i].runtimeDevice == Some(s.directories[c.uid].device)
                               && ps[i].runtimeInode == Some(s.directories[c.uid].inode))
  {
    if s.record.Some? && c.Startup? {
      var ps := s.record.value.participants;
      assert forall i :: 0 <= i < |ps| ==>
                           (IsSuccessor(ps[i], c) <==>
                            && ps[i].uid == c.uid && ps[i].enabled && ps[i].settlement == Pending
                            && ps[i].profile.appDataRoot == c.appDataRoot
                            && ps[i].profile.runtimeRoot == c.runtimeRoot);
    }
  }

  /**
   * In every interleaving, a startup that is let in is one that the transition system lets register, and under a
   * record it is the one expected: this user with these directories.
   */
  lemma StartupMayRegister(run: Run, n: nat, w: World)
    requires IsRun(run) && n < |run.events| && run.events[n].Decide? && Shows(run.states[n], w)
    requires At(run.states[n + 1], run.movers[n]).Guard? && At(run.states[n + 1], run.movers[n]).caller.Startup?
    ensures AdmitsStart(w, At(run.states[n + 1], run.movers[n]).caller.uid)
    ensures var c := At(run.states[n + 1], run.movers[n]).caller;
            w.record.Some? ==>
              exists i :: 0 <= i < |w.record.value.participants|
                          && w.record.value.participants[i].uid == c.uid && w.record.value.participants[i].enabled
                          && w.record.value.participants[i].settlement == Pending
                          && w.record.value.participants[i].profile.appDataRoot == c.appDataRoot
                          && w.record.value.participants[i].profile.runtimeRoot == c.runtimeRoot
  {
    var s, p := run.states[n], run.movers[n];
    RunKeepsInv(run, n);
    assert StepAt(run, n) && PlaceInv(s, At(s, p));
    var c := At(run.states[n + 1], p).caller;
    assert Admitted(s, c);
    if w.record.Some? {
      AdmittedIffMayStart(s, w, c.uid);
      AdmittedByContent(s, c);
    }
  }

  /** While a controller restores a user with its locks released, it can be joined only by successors it expects. */
  lemma RestoreAdmitsOnlySuccessors(run: Run, n: nat, p: Pid, q: Pid)
    requires IsRun(run) && !run.intruders && n < |run.states|
    requires At(run.states[n], p).Apart? && At(run.states[n], q).Guard?
    ensures At(run.states[n], q).caller.Startup?
    ensures NamesSuccessor(At(run.states[n], p).record, At(run.states[n], q).caller)
  {
    RunKeepsInv(run, n);
    assert RestoringInv(run.states[n], At(run.states[n], p));
    StartupGuardPinsRecord(run, n, q);
  }

  /** The comparison after a restore fails in some state of this run. */
  ghost predicate RecheckFailsAt(run: Run, n: nat, p: Pid)
    requires n < |run.states|
  {
    At(run.states[n], p).Rechecking? && !Unchanged(run.states[n].record, At(run.states[n], p).record)
  }

  lemma RecheckPasses(run: Run, n: nat, p: Pid)
    requires IsRun(run) && !run.intruders && n < |run.states|
    ensures !RecheckFailsAt(run, n, p)
  {
    RunKeepsInv(run, n);
    assert RestoringInv(run.states[n], At(run.states[n], p)) && PlaceInv(run.states[n], At(run.states[n], p));
  }

  /** A controller restores; while it is apart, another writer replaces the record; the controller comes back. */
  function IntrudedRun(r: Record): Run {
    var s0 := State(map[], Some(r), None, map[], {});
    var s1 := Moved(s0, 0, WithController);
    var s2 := Moved(s1, 0, Preparing);
    var s3 := Moved(s2, 0, Running);
    var s4 := Moved(s3, 0, Loosened(r));
    var s5 := Moved(s4, 0, Apart(r));
    var s6 := Moved(s5, 1, Intruding);
    var s7 := s6.(record := None);
    var s8 := Moved(s7, 1, Outside);
    var s9 := Moved(s8, 0, Returning(r));
    var s10 := Moved(s9, 0, Rechecking(r));
    Run([s0, s1, s2, s3, s4, s5, s6, s7, s8, s9, s10], [0, 0, 0, 0, 0, 1, 1, 1, 0, 0],
        [TakeController, TakeQuiesce, TakePackage, ReleasePackage, ReleaseQuiesce, Intrude, Write(None, None), Leave,
         RetakeQuiesce, RetakePackage], true)
  }

  lemma IntrudedRunComesApart(r: Record, n: nat)
    requires n < 5 && Restoring(r) && r.phase.Settling?
    ensures StepAt(IntrudedRun(r), n)
  {
  }

  lemma IntrudedRunComesBack(r: Record, n: nat)
    requires 5 <= n < 10 && Restoring(r) && r.phase.Settling?
    ensures StepAt(IntrudedRun(r), n)
  {
  }

  lemma IntrudedRunIsRun(r: Record)
    requires Restoring(r) && r.phase.Settling?
    ensures IsRun(IntrudedRun(r))
  {
    forall n | 0 <= n < 10 ensures StepAt(IntrudedRun(r), n) {
      if n < 5 {
        IntrudedRunComesApart(r, n);
      } else {
        IntrudedRunComesBack(r, n);
      }
    }
  }

  /** The comparison can fail exactly where a writer may do without the controller lock. */
  lemma RecheckConflictsOnlyWithIntruders(intruders: bool)
    ensures intruders <==> exists run, n: nat, p: Pid :: IsRun(run) && run.intruders == intruders && n < |run.states|
                                                         && RecheckFailsAt(run, n, p)
  {
    if intruders {
      var r := Record(Forward, "", Upgrade, Settling, "", "", None, []);
      IntrudedRunIsRun(r);
      assert RecheckFailsAt(IntrudedRun(r), 10, 0);
    } else {
      forall run, n: nat, p: Pid | IsRun(run) && !run.intruders && n < |run.states|
        ensures !RecheckFailsAt(run, n, p)
      {
        RecheckPasses(run, n, p);
      }
    }
  }

  // ---- what the locks let happen ----

  function Last(run: Run): State
    requires |run.states| > 0
  {
    run.states[|run.states| - 1]
  }

  lemma ExtendedIsRun(run: Run, p: Pid, e: Event, s: State)
    requires IsRun(run) && Step(Last(run), p, e, s, run.intruders)
    ensures IsRun(Run(run.states + [s], run.movers + [p], run.events + [e], run.intruders))
  {
    var later := Run(run.states + [s], run.movers + [p], run.events + [e], run.intruders);
    forall n | 0 <= n < |later.events|
      ensures StepAt(later, n)
    {
      if n < |run.events| {
        assert StepAt(run, n);
      }
    }
  }

  ghost function Extend(run: Run, p: Pid, e: Event, s: State): (later: Run)
    requires IsRun(run) && Step(Last(run), p, e, s, run.intruders)
    ensures IsRun(later) && Last(later) == s && later.intruders == run.intruders && run.states < later.states
  {
    ExtendedIsRun(run, p, e, s);
    Run(run.states + [s], run.movers + [p], run.events + [e], run.intruders)
  }

  /** Nobody keeps callers out. */
  ghost predicate Open(s: State) {
    QuiesceShareable(s) && PackageShareable(s)
  }

  /** Everybody but this process is outside. */
  ghost predicate Alone(s: State, p: Pid) {
    forall q :: q != p ==> At(s, q).Outside?
  }

  /** How far a caller gets with its next step, if it is admitted. */
  function CallerNext(x: Place, c: Caller, record: Option<Record>): Place {
    match x
    case Outside => AtIntent(c)
    case AtIntent(_) => PastIntent(c)
    case PastIntent(_) => AtRecord(c)
    case _ => Guard(c, record)
  }

  lemma CallerSteps(begun: Run, p: Pid, c: Caller) returns (run: Run)
    requires IsRun(begun) && Open(Last(begun)) && Last(begun).intent.None? && Admitted(Last(begun), c)
    requires At(Last(begun), p) in {Outside, AtIntent(c), PastIntent(c), AtRecord(c)}
    ensures IsRun(run) && begun.states < run.states && run.intruders == begun.intruders && Open(Last(run))
    ensures Last(run) == Moved(Last(begun), p, CallerNext(At(Last(begun), p), c, Last(begun).record))
    ensures Admitted(Last(run), c)
  {
    var s := Last(begun);
    var s' := Moved(s, p, CallerNext(At(s, p), c, s.record));
    MovedAt(s, p, At(s', p));
    var e :=
      match At(s, p)
      case Outside => Enter(c)
      case AtIntent(_) => ReadIntent
      case PastIntent(_) => SharePackage
      case _ => Decide;
    assert AdmissionStep(s, p, e, s');
    run := Extend(begun, p, e, s');
  }

  /** How far a controller gets that restores the users of this record. */
  function ControllerNext(x: Place, r: Record): Place {
    match x
    case Outside => WithController
    case WithController => Preparing
    case Preparing => Running
    case Running => Loosened(r)
    case Loosened(_) => Apart(r)
    case Apart(_) => Returning(r)
    case Returning(_) => Rechecking(r)
    case _ => Running
  }

  function ControllerEvent(x: Place): Event {
    match x
    case Outside => TakeController
    case WithController => TakeQuiesce
    case Preparing => TakePackage
    case Running => ReleasePackage
    case Loosened(_) => ReleaseQuiesce
    case Apart(_) => RetakeQuiesce
    case Returning(_) => RetakePackage
    case _ => Recheck
  }

  lemma ControllerSteps(begun: Run, r: Record) returns (run: Run)
    requires IsRun(begun) && Alone(Last(begun), 0) && Last(begun).record == Some(r)
    requires Restoring(r) && r.phase.Settling?
    requires At(Last(begun), 0) in {Outside, WithController, Preparing, Running, Loosened(r), Apart(r), Returning(r),
                                    Rechecking(r)}
    ensures IsRun(run) && begun.states < run.states && run.intruders == begun.intruders && Alone(Last(run), 0)
    ensures Last(run) == Moved(Last(begun), 0, ControllerNext(At(Last(begun), 0), r))
  {
    var s := Last(begun);
    var x := At(s, 0);
    var s' := Moved(s, 0, ControllerNext(x, r));
    MovedAt(s, 0, At(s', 0));
    assert ControllerStep(s, 0, ControllerEvent(x), s');
    run := Extend(begun, 0, ControllerEvent(x), s');
  }

  /** The record restores, is settling, and expects this very caller, whose runtime directory is the recorded one. */
  predicate Awaits(r: Record, c: Caller, directory: Identity) {
    && Validate(r, r.kind, r.targetVersion) && Restoring(r) && r.phase.Settling? && c.Startup?
    && |r.participants| > 0 && r.participants[0].uid == c.uid && r.participants[0].enabled
    && r.participants[0].settlement.Pending? && r.participants[0].profile.appDataRoot == c.appDataRoot
    && r.participants[0].profile.runtimeRoot == c.runtimeRoot
    && r.participants[0].runtimeDevice == Some(directory.device)
    && r.participants[0].runtimeInode == Some(directory.inode)
  }

  /** A controller takes its locks and lets go of two of them to restore a user, who logs in. */
  lemma ControllerLetsGo(r: Record, uid: Uid, directory: Identity) returns (run: Run)
    requires Restoring(r) && r.phase.Settling?
    ensures IsRun(run) && !run.intruders && run.states[0].record == Some(r)
    ensures var s := Last(run);
            && At(s, 0) == Apart(r) && Alone(s, 0) && s.record == Some(r) && s.intent.None?
            && s.directories == map[uid := directory] && s.misplaced == {}
  {
    run := Run([State(map[], Some(r), None, map[], {})], [], [], false);
    run := ControllerSteps(run, r);
    run := ControllerSteps(run, r);
    run := ControllerSteps(run, r);
    run := ControllerSteps(run, r);
    run := ControllerSteps(run, r);
    var s := Last(run);
    var later := s.(directories := map[uid := directory], misplaced := {});
    assert forall q :: At(later, q) == At(s, q);
    run := Extend(run, 0, SessionChange(map[uid := directory], {}), later);
  }

  /** A caller whom the decision admits is let in, with nobody in the way. */
  lemma CallerLetIn(begun: Run, p: Pid, c: Caller) returns (run: Run)
    requires IsRun(begun) && At(Last(begun), p).Outside? && Last(begun).intent.None? && Admitted(Last(begun), c)
    requires Open(Last(begun))
    ensures IsRun(run) && begun.states <= run.states && run.intruders == begun.intruders && Open(Last(run))
    ensures Last(run) == Moved(Last(begun), p, Guard(c, Last(begun).record))
  {
    run := CallerSteps(begun, p, c);
    run := CallerSteps(run, p, c);
    run := CallerSteps(run, p, c);
    run := CallerSteps(run, p, c);
    assert Last(run).places == Last(begun).places[p := Guard(c, Last(begun).record)];
  }

  /** Once the caller has left, the controller takes its locks back, finds its record, and goes on. */
  lemma ControllerReturns(begun: Run, p: Pid, r: Record) returns (run: Run)
    requires IsRun(begun) && p != 0 && At(Last(begun), 0) == Apart(r) && Alone(Moved(Last(begun), p, Outside), 0)
    requires Last(begun).record == Some(r) && Restoring(r) && r.phase.Settling?
    ensures IsRun(run) && begun.states <= run.states && run.intruders == begun.intruders
    ensures At(Last(run), 0) == Running && Last(run).record == Some(r)
  {
    run := Extend(begun, p, Leave, Moved(Last(begun), p, Outside));
    run := ControllerSteps(run, r);
    run := ControllerSteps(run, r);
    run := ControllerSteps(run, r);
  }

  /** The successor that a restore waits for can be let in by the locks, and the restore then goes on. */
  lemma RestoreCanSucceed(r: Record, c: Caller, directory: Identity) returns (run: Run, n: nat)
    requires Awaits(r, c, directory)
    ensures IsRun(run) && !run.intruders && run.states[0].record == Some(r) && n < |run.states|
    ensures At(run.states[n], 0) == Apart(r) && At(run.states[n], 1) == Guard(c, Some(r))
    ensures At(Last(run), 0) == Running && Last(run).record == Some(r)
  {
    run := ControllerLetsGo(r, c.uid, directory);
    assert IsSuccessor(r.participants[0], c);
    var apart := Last(run);
    run := CallerLetIn(run, 1, c);
    n := |run.states| - 1;
    assert forall q :: q != 1 ==> At(Moved(Last(run), 1, Outside), q) == At(apart, q);
    run := ControllerReturns(run, 1, r);
  }

  /** Where there is neither intent nor record, two jobs are let in at once. */
  lemma JobsTogether() returns (run: Run)
    ensures IsRun(run) && At(Last(run), 0) == Guard(Job, None) && At(Last(run), 1) == Guard(Job, None)
  {
    run := Run([State(map[], None, None, map[], {})], [], [], false);
    run := CallerLetIn(run, 0, Job);
    run := CallerLetIn(run, 1, Job);
  }
}
