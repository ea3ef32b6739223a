/**
 * The runner of one OCR handoff. Its methods follow the consumer's, loop for loop, over the stored handoff; every
 * write, call and checkpoint is one step of OcrHandoff. Cancellation may be requested, and an admitted child may
 * complete, at any point between two steps.
 */
module OcrRunner {
  import opened Faults
  import opened Runs
  import opened Wrappers
  import opened OcrContent
  import opened OcrHandoff

  datatype OcrError = Store | InvalidOutput | ProviderFailed | Transport | Deadline | Cancelled
                    | Unavailable

  /** The stored handoff is where the answer just heard leads from this phase. */
  predicate AnswerApplied(phase: Phase, w: World) {
    match w.heard
    case Some(Received(status)) =>
      (match Judge(w.saved, w.codec, status)
       case Working => w.phase.Running?
       case Ready(outputs) => w.phase.OutputReady? && w.outputs == Some(outputs)
       case _ => false)
    case Some(NotFound) => phase.SubmissionUncertain? && w.phase.Prepared?
    case Some(Uncertain) => w.phase == phase
    case _ => false
  }

  class HandoffStore {
    var db: World
    ghost var run: History
    ghost var calls: nat       // calls to the provider so far
    const faulty: bool         // whether the database and the file system may fail

    /** A handoff just prepared. */
    constructor (codec: Codec, forgetful: bool, saved: Saved, faulty: bool)
      ensures Valid() && calls == 0 && this.faulty == faulty
      ensures db == World(codec, forgetful, saved, Prepared, None, false, 0, None, None)
    {
      var w := World(codec, forgetful, saved, Prepared, None, false, 0, None, None);
      db, run, calls := w, Start(w), 0;
      this.faulty := faulty;
    }

    ghost predicate Valid()
      reads this
    {
      IsRun(run) && Last(run) == db && Inv(db)
    }

    twostate predicate Grew()
      reads this
    {
      && Continues(old(run), run) && old(db).saved == db.saved && old(db).codec == db.codec
      && (old(db).cancelled ==> db.cancelled)
    }

    method Take(ghost e: Event, next: World)
      requires Valid() && Step(db, e, next) && !IsTransport(e)
      modifies this`db, this`run
      ensures Valid() && Grew() && db == next
    {
      StepKeepsInv(db, e, next);
      run := Extend(run, e, next);
      db := next;
    }

    /** What others do between two steps of the runner. */
    method Interfere()
      requires Valid()
      modifies this`db, this`run
      ensures Valid() && Grew()
      ensures db == old(db).(cancelled := db.cancelled, phase := db.phase)
      ensures db.phase == old(db).phase || (old(db).phase.ChildAdmitted? && db.phase.Completed?)
    {
      var cancel, finish: bool := *, *;
      if cancel {
        Take(CancelRequested, db.(cancelled := true));
      }
      if finish && db.phase.ChildAdmitted? {
        Take(Finished, db.(phase := Completed));
      }
    }

    /** Compare-and-set on the phase, to failure. */
    method FailHandoff(expected: Phase) returns (won: Result<bool, OcrError>)
      requires Valid() && !IsAdmitted(expected) && !expected.Failed?
      modifies this`db, this`run
      ensures Valid() && Grew()
      ensures db.phase == old(db).phase || (db.phase.Failed? && old(db).phase == expected)
      ensures won.Ok? ==> (won.value <==> old(db).phase == expected) && (won.value ==> db.phase.Failed?)
      ensures won.Ok? && !won.value ==> db == old(db)
      ensures won.Err? ==> won.error.Store?
      ensures !faulty ==> won.Ok?
    {
      var before := Fault(faulty);
      if before {
        return Err(Store);
      }
      if db.phase == expected {
        Take(GivenUp, db.(phase := Failed));
        var after := Fault(faulty);
        return if after then Err(Store) else Ok(true);
      }
      won := Ok(false);
    }

    /** Compare-and-set on the phase, to the phase that this event leads to. */
    method Transition(ghost e: Event, next: World) returns (o: Outcome<OcrError>)
      requires Valid() && Step(db, e, next) && !IsTransport(e)
      modifies this`db, this`run
      ensures Valid() && Grew()
      ensures db == next || (o.Fail? && db == old(db))
      ensures o.Fail? ==> o.error.Store?
      ensures !faulty ==> o.Pass?
    {
      var before := Fault(faulty);
      if before {
        return Fail(Store);
      }
      Take(e, next);
      var after := Fault(faulty);
      o := if after then Fail(Store) else Pass;
    }

    /** Sends the job; whether the provider took it, and what it answers, is up to the provider. */
    method Submit(request: JobRequest) returns (answer: Answer)
      requires Valid() && AboutToSubmit(db) && SavedRequest(db.saved, db.codec) == Some(request)
      modifies this
      ensures Valid() && Grew() && calls == old(calls) + 1
      ensures db == old(db).(permit := None, heard := db.heard, accepted := db.accepted)
      ensures db.heard == if answer.NotFound? then None else Some(answer)
    {
      var reached: bool := *;
      answer := *;
      var next := db.(permit := None, heard := if answer.NotFound? then None else Some(answer),
                      accepted := if reached then db.accepted + 1 else db.accepted);
      var e := Submitted(request, db.saved.source, reached, answer);
      StepKeepsInv(db, e, next);
      run := Extend(run, e, next);
      db := next;
      calls := calls + 1;
    }

    method Status() returns (answer: Answer)
      requires Valid() && (db.phase.SubmissionUncertain? || db.phase.Running?) && db.permit == Some(db.phase)
      modifies this
      ensures Valid() && Grew() && calls == old(calls) + 1
      ensures db == old(db).(permit := None, heard := Some(answer))
    {
      answer := *;
      if answer.NotFound? && db.accepted > 0 && !db.forgetful {
        answer := Uncertain;
      }
      var e := Asked(db.saved.jobId, answer);
      var next := db.(permit := None, heard := Some(answer));
      StepKeepsInv(db, e, next);
      run := Extend(run, e, next);
      db := next;
      calls := calls + 1;
    }

    /** A copy of the handoff may be out of date, but never about being admitted or failed. */
    predicate IsCopy(phase: Phase)
      reads this
    {
      (IsAdmitted(phase) ==> IsAdmitted(db.phase)) && (phase.Failed? ==> db.phase.Failed?)
    }

    /** Lets the runner go on, or, once cancellation is requested, fails a handoff that is not admitted yet. */
    method CancellationCheckpoint(phase: Phase) returns (o: Outcome<OcrError>)
      requires Valid() && IsCopy(phase)
      modifies this`db, this`run
      ensures Valid() && Grew()
      ensures o.Pass? ==>
                && db.permit == Some(db.phase) && db.saved == old(db).saved && db.heard == old(db).heard
                && (db.phase == old(db).phase || (old(db).phase.ChildAdmitted? && db.phase.Completed?))
                && (old(db).cancelled ==> IsAdmitted(db.phase))
      ensures o == Fail(Cancelled) ==> db.phase.Failed?
      ensures o.Fail? ==> o.error.Store? || o.error.Cancelled?
      ensures !faulty && old(db).cancelled && !IsAdmitted(old(db).phase) ==> o == Fail(Cancelled)
      ensures !faulty && old(db).cancelled && old(db).phase != ChildAdmitted && old(db).phase != Completed ==>
                o == Fail(Cancelled)
      ensures !faulty && IsAdmitted(phase) ==> o.Pass?
      ensures !faulty && o.Fail? ==> o == Fail(Cancelled)
      ensures o.Pass? && db.cancelled ==> IsAdmitted(db.phase)
    {
      Interfere();
      var fault := Fault(faulty);
      if fault {
        return Fail(Store);
      }
      if !db.cancelled {
        Take(Passed, db.(permit := Some(db.phase)));
        return Pass;
      }
      var current := phase;
      while !IsAdmitted(current)
        invariant Valid() && Grew() && IsCopy(current) && db.cancelled
        invariant db.heard == old(db).heard
        invariant db.phase == old(db).phase || (old(db).phase.ChildAdmitted? && db.phase.Completed?)
        decreases if current == db.phase then 0 else 1
      {
        if current.Failed? {
          return Fail(Cancelled);
        }
        var won := FailHandoff(current);
        if won.Err? {
          return Fail(won.error);
        }
        if won.value {
          return Fail(Cancelled);
        }
        current := db.phase;
      }
      Take(Passed, db.(permit := Some(db.phase)));
      o := Pass;
    }

    /** Stores where the judgement of a report leads. */
    method FollowJudgement(phase: Phase, report: Report) returns (o: Outcome<OcrError>)
      requires Valid() && phase == db.phase && (phase.SubmissionUncertain? || phase.Running?)
      requires db.heard.Some? && db.heard.value.Received?
      requires report == Judge(db.saved, db.codec, db.heard.value.status)
      modifies this`db, this`run
      ensures Valid() && Grew() && !IsAdmitted(db.phase)
      ensures db.saved == old(db).saved && db.codec == old(db).codec
      ensures o.Fail? ==> o.error.Store? || o.error.ProviderFailed? || o.error.InvalidOutput?
      ensures o.Pass? ==> db.heard == old(db).heard && AnswerApplied(phase, db) && (report.Working? || report.Ready?)
      ensures !faulty && report.Working? ==> o.Pass? && db.phase.Running? && db.outputs == old(db).outputs
      ensures !faulty && report.Ready? ==> o.Pass? && db.phase.OutputReady? && db.outputs == Some(report.outputs)
      ensures !faulty && !report.Working? && !report.Ready? ==>
                db.phase.Failed? && o == Fail(if report.Broken? then ProviderFailed else InvalidOutput)
    {
      match report {
        case Working =>
          o := Transition(Started, db.(phase := Running));
        case Ready(outputs) =>
          o := Transition(Stored(outputs), db.(phase := OutputReady, outputs := Some(outputs)));
        case Broken =>
          var won := FailHandoff(phase);
          o := Fail(if won.Err? then won.error else ProviderFailed);
        case _ =>
          var won := FailHandoff(phase);
          o := Fail(if won.Err? then won.error else InvalidOutput);
      }
    }

    /** Applies a report on the job to the stored handoff. */
    method ApplyReport(phase: Phase, status: JobStatus) returns (o: Outcome<OcrError>)
      requires Valid() && phase == db.phase && (phase.SubmissionUncertain? || phase.Running?)
      requires db.heard == Some(Received(status))
      modifies this`db, this`run
      ensures Valid() && Grew() && !IsAdmitted(db.phase)
      ensures o.Fail? ==> o.error.Store? || o.error.ProviderFailed? || o.error.InvalidOutput?
      ensures o.Pass? ==> db.heard == old(db).heard && AnswerApplied(phase, db)
      ensures !faulty ==> (o.Fail? ==> db.phase.Failed?)
      ensures var report := Judge(old(db).saved, old(db).codec, status);
              !faulty ==> (o.Pass? <==> report.Working? || report.Ready?)
      ensures SavedRequest(old(db).saved, old(db).codec).Some? && !faulty ==>
                var onJob := Echoes(status, old(db).saved, SavedRequest(old(db).saved, old(db).codec).value);
                && ((status.state.JobAccepted? || status.state.JobProcessing?)
                    && onJob && status.outputs.None? && !status.hasError ==>
                      o.Pass? && db.phase.Running? && db.outputs == old(db).outputs)
                && (status.state.JobFailed? && onJob && status.outputs.None? && status.hasError ==>
                      o == Fail(ProviderFailed) && db.phase.Failed?)
                && (!onJob ==> o == Fail(InvalidOutput) && db.phase.Failed?)
                && (status.state.JobDone? && onJob && status.outputs.Some? && !status.hasError ==>
                      if o.Pass? then
                        && db.phase.OutputReady? && db.outputs.Some?
                        && Delivers(status.outputs.value, db.outputs.value, db.codec)
                        && Acceptable(db.saved, db.codec, db.outputs.value)
                      else
                        && o == Fail(InvalidOutput) && db.phase.Failed?
                        && forall d :: !(Delivers(status.outputs.value, d, db.codec)
                                         && Acceptable(db.saved, db.codec, d)))
    {
      if SavedRequest(db.saved, db.codec).Some? {
        JudgeByState(db.saved, db.codec, status);
        if Judge(db.saved, db.codec, status).Ready? {
          ReadyIffDelivered(db.saved, db.codec, status, Judge(db.saved, db.codec, status).outputs);
        }
      }
      o := FollowJudgement(phase, Judge(db.saved, db.codec, status));
    }

    /** Admits the derived run whose id was fixed when the handoff was prepared. */
    method AdmitChild() returns (child: Result<string, OcrError>)
      requires Valid() && (db.phase.OutputReady? ==> db.permit == Some(OutputReady))
      requires db.phase.OutputReady? || IsAdmitted(db.phase)
      modifies this`db, this`run
      ensures Valid() && Grew()
      ensures child.Ok? ==> child.value == db.saved.childRunId && IsAdmitted(db.phase)
      ensures child.Err? ==> child.error.Store?
      ensures !faulty ==> child.Ok?
    {
      if IsAdmitted(db.phase) {
        return Ok(db.saved.childRunId);
      }
      var o := Transition(Admitted, db.(phase := ChildAdmitted, permit := None));
      child := if o.Fail? then Err(o.error) else Ok(db.saved.childRunId);
    }

    /** Stores where the answer to a submission leads. */
    method FollowSubmit(answer: Answer) returns (o: Outcome<OcrError>)
      requires Valid() && db.phase.SubmissionUncertain?
      requires db.heard == if answer.NotFound? then None else Some(answer)
      modifies this`db, this`run
      ensures Valid() && Grew()
      ensures o == Fail(Cancelled) ==> db.phase.Failed?
      ensures o.Pass? ==> AnswerApplied(SubmissionUncertain, db) && !db.phase.Prepared?
      ensures !faulty && o.Fail? ==> if o.error.Transport? then db.phase.SubmissionUncertain? else db.phase.Failed?
      ensures !faulty && o.Fail? && db.cancelled ==> db.phase.Failed?
    {
      o := CancellationCheckpoint(SubmissionUncertain);
      if o.Fail? {
        return;
      }
      match answer {
        case Received(status) =>
          o := ApplyReport(SubmissionUncertain, status);
        case Refused =>
          var won := FailHandoff(SubmissionUncertain);
          o := Fail(if won.Err? then won.error else ProviderFailed);
        case Uncertain =>
          o := Pass;
        case _ =>
          o := Fail(Transport);
      }
    }

    /** One turn of a handoff that is prepared: announce durably, then submit. */
    method SubmitTurn() returns (o: Outcome<OcrError>)
      requires Valid() && db.phase.Prepared? && db.permit == Some(Prepared)
      modifies this
      ensures Valid() && Grew() && calls <= old(calls) + 1
      ensures o == Fail(Cancelled) ==> db.phase.Failed?
      ensures o.Pass? ==> calls == old(calls) + 1 && !db.phase.Prepared?
      ensures o.Pass? ==> AnswerApplied(SubmissionUncertain, db)
      ensures !faulty && o.Fail? ==> if o.error.Transport? then db.phase.SubmissionUncertain? else db.phase.Failed?
      ensures !faulty && o.Fail? && db.cancelled ==> db.phase.Failed?
      ensures SavedRequest(old(db).saved, old(db).codec).None? ==> o.Fail? && calls == old(calls)
    {
      var request := SavedRequest(db.saved, db.codec);
      if request.None? {
        var won := FailHandoff(Prepared);
        return Fail(if won.Err? then won.error else InvalidOutput);
      }
      :- Transition(Announced, db.(phase := SubmissionUncertain));
      var answer := Submit(request.value);
      o := FollowSubmit(answer);
    }

    /** One turn of a handoff whose submission is uncertain: ask, and prepare it again only if the job is unknown. */
    method ReconcileTurn() returns (o: Outcome<OcrError>)
      requires Valid() && db.phase.SubmissionUncertain? && db.permit == Some(SubmissionUncertain)
      modifies this
      ensures Valid() && Grew() && calls <= old(calls) + 1
      ensures o == Fail(Cancelled) ==> db.phase.Failed?
      ensures o.Pass? ==> calls == old(calls) + 1 && AnswerApplied(SubmissionUncertain, db)
      ensures !faulty && o.Fail? ==> if o.error.Transport? then db.phase.SubmissionUncertain? else db.phase.Failed?
      ensures !faulty && o.Fail? && db.cancelled ==> db.phase.Failed?
    {
      var answer := Status();
      :- CancellationCheckpoint(SubmissionUncertain);
      match answer {
        case Received(status) =>
          o := ApplyReport(SubmissionUncertain, status);
        case NotFound =>
          o := Transition(Withdrawn, db.(phase := Prepared));
        case Uncertain =>
          o := Pass;
        case _ =>
          o := Fail(Transport);
      }
    }

    method PollTurn() returns (o: Outcome<OcrError>)
      requires Valid() && db.phase.Running? && db.permit == Some(Running)
      modifies this
      ensures Valid() && Grew() && calls <= old(calls) + 1
      ensures o == Fail(Cancelled) ==> db.phase.Failed?
      ensures o.Pass? ==> calls == old(calls) + 1 && AnswerApplied(Running, db)
      ensures !faulty && o.Fail? ==> if o.error.Transport? then db.phase.Running? else db.phase.Failed?
      ensures !faulty && o.Fail? && db.cancelled ==> db.phase.Failed?
    {
      var answer := Status();
      :- CancellationCheckpoint(Running);
      match answer {
        case Received(status) =>
          o := ApplyReport(Running, status);
        case Uncertain =>
          o := Pass;
        case _ =>
          o := Fail(Transport);
      }
    }

    /** Writes the derived document to its file, or finds it there. */
    method Materialize() returns (o: Outcome<OcrError>)
      ensures !faulty ==> o.Pass?
      ensures o.Fail? ==> o.error.Store?
    {
      var fault := Fault(faulty);
      o := if fault then Fail(Store) else Pass;
    }

    /** Ends a handoff whose outputs are stored, or that has failed; the provider is not needed for that. */
    method EndTurn(phase: Phase) returns (child: Result<string, OcrError>)
      requires Valid() && IsSettled(phase) && IsCopy(phase) && db.permit == Some(db.phase)
      requires db.phase == phase || (phase.ChildAdmitted? && db.phase.Completed?)
      modifies this`db, this`run
      ensures Valid() && Grew()
      ensures child.Ok? ==> child.value == db.saved.childRunId && IsAdmitted(db.phase)
      ensures child.Err? ==> !child.error.Cancelled?
      ensures !faulty ==> (child.Ok? <==> !old(db).phase.Failed?) && (child.Err? ==> db.phase.Failed?)
    {
      if phase.Failed? {
        return Err(ProviderFailed);
      }
      var o := Materialize();
      if o.Fail? {
        return Err(o.error);
      }
      if IsAdmitted(phase) {
        return Ok(db.saved.childRunId);
      }
      child := AdmitChild();
    }

    method Turn(phase: Phase) returns (o: Outcome<OcrError>)
      requires Valid() && db.phase == phase && !IsSettled(phase) && db.permit == Some(phase)
      modifies this
      ensures Valid() && Grew() && calls <= old(calls) + 1
      ensures o == Fail(Cancelled) ==> db.phase.Failed?
      ensures o.Pass? ==> AnswerApplied(if phase.Prepared? then SubmissionUncertain else phase, db)
      ensures !faulty && o.Fail? ==> o.error.Transport? || db.phase.Failed?
      ensures !faulty && o.Fail? && db.cancelled ==> db.phase.Failed?
    {
      if phase.Prepared? {
        o := SubmitTurn();
      } else if phase.SubmissionUncertain? {
        o := ReconcileTurn();
      } else {
        o := PollTurn();
      }
    }

    /**
     * Runs the handoff until its child is admitted, it fails, or time is up; each turn takes at least a tick of the
     * clock. Whatever run it is, the child is the one fixed at preparation; a handoff cancelled before or during the
     * run that is not admitted ends failed; and a handoff whose outputs are stored is ended without the provider.
     */
    method RunUntil(start: nat, deadline: nat) returns (child: Result<string, OcrError>)
      requires Valid()
      modifies this
      ensures Valid() && Grew()
      ensures child.Ok? ==> child.value == old(db).saved.childRunId && IsAdmitted(db.phase)
      ensures child.Ok? ==> db.phase == ChildAdmitted || db.phase == Completed
      ensures !faulty && start <= deadline && (old(db).phase == ChildAdmitted || old(db).phase == Completed) ==>
                child.Ok?
      ensures child == Err(Cancelled) ==> db.phase.Failed?
      ensures old(db).cancelled || IsSettled(old(db).phase) ==> calls == old(calls)
      ensures !faulty && old(db).cancelled && !IsAdmitted(old(db).phase) ==> child == Err(Cancelled)
      ensures !faulty && IsAdmitted(old(db).phase) && start <= deadline ==> child.Ok?
      ensures !faulty && db.cancelled ==> IsAdmitted(db.phase) || db.phase.Failed?
      ensures !faulty && child.Err? ==> child.error.Deadline? || child.error.Transport? || db.phase.Failed?
    {
      // a new runner remembers nothing of the one before
      Take(Crashed, db.(permit := None, heard := None));
      var now := start;
      var phase := db.phase;
      while true
        invariant Valid() && Grew() && (db.phase == phase || (phase.ChildAdmitted? && db.phase.Completed?))
        invariant IsSettled(old(db).phase) || old(db).cancelled ==>
                    calls == old(calls) && phase == old(db).phase && now == start
        decreases deadline + 1 - now
      {
        var o := CancellationCheckpoint(phase);
        if o.Fail? {
          return Err(o.error);
        }
        if now > deadline {
          return Err(Deadline);
        }
        if IsSettled(phase) {
          child := EndTurn(phase);
          return;
        }
        var before := now;
        o := Turn(phase);
        if o.Fail? {
          return Err(o.error);
        }
        phase := db.phase;
        now :| now > before;
      }
    }
  }
}
