/**
 * The handoff of a scanned document to an OCR provider (protocol 2), as a transition system: the stored handoff, the
 * cancellation request, the provider's job table, and what the one runner has in memory. A crash loses the memory.
 */
module OcrHandoff {
  import opened Runs
  import opened Wrappers
  import opened OcrContent

  datatype Phase = Prepared | SubmissionUncertain | Running | OutputReady | ChildAdmitted | Completed | Failed

  datatype Answer = Received(status: JobStatus) | NotFound | Refused | Uncertain | Unusable

  datatype World = World(
    codec: Codec,               // how texts are read; never changes
    forgetful: bool,            // whether the provider may lose track of a job it took; never changes
    saved: Saved,
    phase: Phase,
    outputs: Option<Outputs>,
    cancelled: bool,
    accepted: nat,              // how often the provider took the job
    permit: Option<Phase>,      // the runner's last checkpoint, until it uses it
    heard: Option<Answer>)      // the runner's last answer

  datatype Event =
    | Announced
    | Withdrawn
    | Started
    | Stored(outputs: Outputs)
    | GivenUp
    | Admitted
    | Finished
    | CancelRequested
    | Passed
    | Submitted(request: JobRequest, source: Bytes, reached: bool, answer: Answer)
    | Asked(jobId: string, answer: Answer)
    | Crashed

  predicate IsSettled(p: Phase) {
    p.OutputReady? || p.ChildAdmitted? || p.Completed? || p.Failed?
  }

  predicate IsAdmitted(p: Phase) {
    p.ChildAdmitted? || p.Completed?
  }

  /** What the last answer reports on this job. */
  function HeardReport(w: World): Option<Report> {
    match w.heard
    case Some(Received(status)) => Some(Judge(w.saved, w.codec, status))
    case _ => None
  }

  /** A provider that never forgets a job says that it is unknown only if it never took it. */
  ghost predicate Step(w: World, e: Event, w': World) {
    match e
    case Announced =>
      w.phase.Prepared? && SavedRequest(w.saved, w.codec).Some? && w' == w.(phase := SubmissionUncertain)
    case Withdrawn => w.phase.SubmissionUncertain? && w.heard == Some(NotFound) && w' == w.(phase := Prepared)
    case Started =>
      && (w.phase.SubmissionUncertain? || w.phase.Running?) && HeardReport(w) == Some(Working)
      && w' == w.(phase := Running)
    case Stored(outputs) =>
      && (w.phase.SubmissionUncertain? || w.phase.Running?) && HeardReport(w) == Some(Ready(outputs))
      && w' == w.(phase := OutputReady, outputs := Some(outputs))
    case GivenUp => !IsAdmitted(w.phase) && !w.phase.Failed? && w' == w.(phase := Failed)
    case Admitted =>
      w.phase.OutputReady? && w.permit == Some(OutputReady) && w' == w.(phase := ChildAdmitted, permit := None)
    case Finished => w.phase.ChildAdmitted? && w' == w.(phase := Completed)
    case CancelRequested => w' == w.(cancelled := true)
    case Passed => (!w.cancelled || IsAdmitted(w.phase)) && w' == w.(permit := Some(w.phase))
    case Submitted(request, source, reached, answer) =>
      && w.phase.SubmissionUncertain? && w.permit == Some(Prepared)
      && SavedRequest(w.saved, w.codec) == Some(request) && source == w.saved.source
      && w' == w.(permit := None, heard := if answer.NotFound? then None else Some(answer),
                  accepted := if reached then w.accepted + 1 else w.accepted)
    case Asked(jobId, answer) =>
      && (w.phase.SubmissionUncertain? || w.phase.Running?) && w.permit == Some(w.phase)
      && jobId == w.saved.jobId
      && w' == w.(permit := None, heard := Some(answer))
      && (answer == NotFound && !w.forgetful ==> w.accepted == 0)
    case Crashed => w' == w.(permit := None, heard := None)
  }

  /** The job may be sent: it is stored as announced, and the runner passed its checkpoint before announcing it. */
  predicate AboutToSubmit(w: World) {
    w.phase.SubmissionUncertain? && w.permit == Some(Prepared)
  }

  ghost predicate Inv(w: World) {
    && (w.outputs.Some? ==> IsSettled(w.phase) && Acceptable(w.saved, w.codec, w.outputs.value))
    && (w.phase.OutputReady? || IsAdmitted(w.phase) ==> w.outputs.Some?)
    && (!w.forgetful ==>
          && w.accepted <= 1
          && (w.phase.Prepared? || AboutToSubmit(w) || w.heard == Some(NotFound) ==> w.accepted == 0))
  }

  lemma StepKeepsInv(w: World, e: Event, w': World)
    requires Inv(w) && Step(w, e, w')
    ensures Inv(w')
  {
    if e.Stored? {
      ReadyIffDelivered(w.saved, w.codec, w.heard.value.status, e.outputs);
    }
  }

  // ---- runs ----

  type History = Run<World, Event>

  predicate IsNew(w: World) {
    w.phase.Prepared? && w.outputs.None? && w.accepted == 0 && w.permit.None? && w.heard.None?
  }

  /** Everything that happens to one handoff, over any number of runners one after the other. */
  ghost predicate IsRun(run: History) {
    Follows(run, Step) && IsNew(run.worlds[0])
  }

  ghost function Extend(run: History, e: Event, w: World): (later: History)
    requires IsRun(run) && Step(Last(run), e, w)
    ensures IsRun(later) && Last(later) == w && Continues(run, later)
  {
    Append(run, Step, e, w)
  }

  lemma {:induction false} RunKeepsInv(run: History, n: nat)
    requires IsRun(run) && n < |run.worlds|
    ensures Inv(run.worlds[n]) && run.worlds[n].saved == run.worlds[0].saved
    ensures run.worlds[n].codec == run.worlds[0].codec && run.worlds[n].forgetful == run.worlds[0].forgetful
  {
    if n > 0 {
      RunKeepsInv(run, n - 1);
      assert StepAt(run, Step, n - 1);
      StepKeepsInv(run.worlds[n - 1], run.events[n - 1], run.worlds[n]);
    }
  }

  predicate IsTransport(e: Event) {
    e.Submitted? || e.Asked?
  }

  predicate IsUnknown(e: Event) {
    e.Asked? && e.answer.NotFound?
  }

  /**
   * Every submission finds the handoff already stored as uncertain, and sends the stored source together with the
   * stored request, which names the stored job and describes exactly those bytes.
   */
  lemma SubmitsAreSaved(run: History, n: nat)
    requires IsRun(run) && n < |run.events| && run.events[n].Submitted?
    ensures run.worlds[n].phase.SubmissionUncertain?
    ensures var s, e := run.worlds[0].saved, run.events[n];
            && e.source == s.source && run.worlds[0].codec.parse(s.requestJson) == Some(e.request)
            && e.request.jobId == s.jobId && |e.request.inputs| == 1
            && e.request.inputs[0].byteSize == |e.source|
            && e.request.inputs[0].sha256 == run.worlds[0].codec.digest(e.source)
  {
    RunKeepsInv(run, n);
    assert StepAt(run, Step, n);
    SavedRequestDescribesSource(run.worlds[0].saved, run.worlds[0].codec);
  }

  /** Whatever outputs are stored, they came from the provider's report on this job and belong together. */
  lemma StoredOutputsAcceptable(run: History, n: nat)
    requires IsRun(run) && n < |run.worlds| && run.worlds[n].outputs.Some?
    ensures Acceptable(run.worlds[0].saved, run.worlds[0].codec, run.worlds[n].outputs.value)
  {
    RunKeepsInv(run, n);
  }

  /** Between `i` and `n` the provider answered that it does not know the job. */
  ghost predicate UnknownBetween(run: History, i: nat, n: nat)
    requires n <= |run.events|
  {
    exists k :: i < k < n && IsUnknown(run.events[k])
  }

  lemma {:induction false} ResubmittableOnlyIfUnknown(run: History, i: nat, n: nat)
    requires IsRun(run) && i < n <= |run.events| && run.events[i].Submitted?
    requires var w := run.worlds[n]; w.phase.Prepared? || AboutToSubmit(w) || w.heard == Some(NotFound)
    ensures UnknownBetween(run, i, n)
  {
    assert StepAt(run, Step, n - 1);
    if IsUnknown(run.events[n - 1]) {
      assert i < n - 1;
    } else if i < n - 1 {
      ResubmittableOnlyIfUnknown(run, i, n - 1);
      var k :| i < k < n - 1 && IsUnknown(run.events[k]);
    }
  }

  /** Two submissions are always separated by a report that the job is unknown. */
  lemma SubmitsSeparated(run: History, i: nat, j: nat)
    requires IsRun(run) && i < j < |run.events| && run.events[i].Submitted? && run.events[j].Submitted?
    ensures exists k :: i < k < j && run.events[k] == Asked(run.worlds[0].saved.jobId, NotFound)
  {
    assert StepAt(run, Step, j);
    ResubmittableOnlyIfUnknown(run, i, j);
    var k :| i < k < j && IsUnknown(run.events[k]);
    RunKeepsInv(run, k);
    assert StepAt(run, Step, k);
  }

  /** A provider that never forgets takes the job at most once, however often the runner crashes and starts again. */
  lemma AcceptedAtMostOnce(run: History, n: nat)
    requires IsRun(run) && !run.worlds[0].forgetful && n < |run.worlds|
    ensures run.worlds[n].accepted <= 1
  {
    RunKeepsInv(run, n);
  }

  lemma {:induction false} SettledStays(run: History, i: nat, j: nat)
    requires IsRun(run) && i <= j < |run.worlds| && IsSettled(run.worlds[i].phase)
    ensures IsSettled(run.worlds[j].phase) && run.worlds[j].outputs == run.worlds[i].outputs
    ensures IsAdmitted(run.worlds[i].phase) ==> IsAdmitted(run.worlds[j].phase)
  {
    if i < j {
      SettledStays(run, i, j - 1);
      assert StepAt(run, Step, j - 1);
    }
  }

  /** Once the outputs are stored, or the handoff has failed, the provider is not contacted again. */
  lemma NoTransportOnceSettled(run: History, i: nat, j: nat)
    requires IsRun(run) && i <= j < |run.events| && IsSettled(run.worlds[i].phase)
    ensures !run.events[j].Submitted? && !run.events[j].Asked?
    ensures run.worlds[j].outputs == run.worlds[i].outputs
  {
    SettledStays(run, i, j);
    assert StepAt(run, Step, j);
  }

  lemma {:induction false} CancelStays(run: History, i: nat, j: nat)
    requires IsRun(run) && i <= j < |run.worlds| && run.worlds[i].cancelled
    ensures run.worlds[j].cancelled
  {
    if i < j {
      CancelStays(run, i, j - 1);
      assert StepAt(run, Step, j - 1);
    }
  }

  /** A cancelled run that has used its permit gets no other, unless the child is admitted already. */
  lemma {:induction false} NoPermitAfterCancel(run: History, i: nat, j: nat)
    requires IsRun(run) && i <= j < |run.worlds| && run.worlds[i].cancelled && run.worlds[i].permit.None?
    ensures run.worlds[j].permit.None? || IsAdmitted(run.worlds[j].phase)
  {
    if i < j {
      NoPermitAfterCancel(run, i, j - 1);
      CancelStays(run, i, j - 1);
      assert StepAt(run, Step, j - 1);
    }
  }

  /** Once cancellation is requested, at most one more call to the provider starts. */
  lemma OneCallAfterCancel(run: History, i: nat, j: nat, k: nat)
    requires IsRun(run) && i <= j < k < |run.events| && run.worlds[i].cancelled
    requires run.events[j].Submitted? || run.events[j].Asked?
    ensures !run.events[k].Submitted? && !run.events[k].Asked?
  {
    CancelStays(run, i, j);
    assert StepAt(run, Step, j) && StepAt(run, Step, k);
    CancelStays(run, j, j + 1);
    NoPermitAfterCancel(run, j + 1, k);
  }

  /** The checkpoint at `m` was passed with the outputs ready, before any cancellation. */
  ghost predicate PassedReady(run: History, m: nat)
    requires IsRun(run) && m < |run.events|
  {
    run.events[m].Passed? && run.worlds[m].phase.OutputReady? && !run.worlds[m].cancelled
  }

  lemma {:induction false} ReadyPermitOrigin(run: History, n: nat) returns (m: nat)
    requires IsRun(run) && n < |run.worlds| && run.worlds[n].permit == Some(OutputReady)
    ensures m < n && PassedReady(run, m)
    ensures forall k :: m < k < n ==> !run.events[k].Crashed? && !IsTransport(run.events[k])
  {
    assert n > 0 && StepAt(run, Step, n - 1);
    if run.events[n - 1].Passed? {
      m := n - 1;
    } else {
      m := ReadyPermitOrigin(run, n - 1);
    }
  }

  /** A child is admitted only by a runner that passed its checkpoint with the outputs ready, before cancellation. */
  lemma AdmittedOnlyAfterCheckpoint(run: History, n: nat) returns (m: nat)
    requires IsRun(run) && n < |run.events| && run.events[n].Admitted?
    ensures m < n && run.events[m].Passed? && run.worlds[m].phase.OutputReady? && !run.worlds[m].cancelled
    ensures forall k :: m < k < n ==> !run.events[k].Crashed? && !run.events[k].Submitted? && !run.events[k].Asked?
  {
    assert StepAt(run, Step, n);
    m := ReadyPermitOrigin(run, n);
  }
}
