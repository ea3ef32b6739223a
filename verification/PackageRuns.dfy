/**
 * Properties of whole runs of the package operation controller. A run is any sequence of steps of the controller and
 * of the machine, so every crash, failed effect and re-run of an action is some run.
 */
module PackageRuns {
  import opened Runs
  import opened Wrappers
  import opened Text
  import opened PackageTypes
  import opened PackageWorld
  import opened PackageInvariant

  type History = Run<World, Event>

  ghost predicate IsRun(run: History) {
    Follows(run, Step) && Inv(run.worlds[0])
  }

  ghost function Extend(run: History, e: Event, w: World): (later: History)
    requires IsRun(run) && Step(Last(run), e, w)
    ensures IsRun(later) && Last(later) == w && Continues(run, later) && later.worlds[0] == run.worlds[0]
  {
    Append(run, Step, e, w)
  }

  lemma {:induction false} RunKeepsInv(run: History, n: nat)
    requires IsRun(run) && n < |run.worlds|
    ensures Inv(run.worlds[n])
  {
    if n > 0 {
      RunKeepsInv(run, n - 1);
      assert StepAt(run, Step, n - 1);
      StepKeepsInv(run.worlds[n - 1], run.events[n - 1], run.worlds[n]);
    }
  }

  /**
   * What is on record in any run: users once each, in uid order, with the device and the inode of a runtime directory
   * or neither; only a removal is ever turned back, and only once its users are stopped; and exactly a reinstall names
   * the removal it follows.
   */
  lemma RecordsAreWellFormed(run: History, n: nat)
    requires IsRun(run) && n < |run.worlds| && run.worlds[n].record.Some?
    ensures var r := run.worlds[n].record.value;
            && (forall i, j :: 0 <= i < j < |r.participants| ==> r.participants[i].uid < r.participants[j].uid)
            && (forall i :: 0 <= i < |r.participants| ==>
                  (r.participants[i].runtimeDevice == None <==> r.participants[i].runtimeInode == None))
            && (r.disposition == Rollback ==> r.kind == Remove && (r.phase == Settling || r.phase == Finalizing))
            && (r.predecessor != None <==> r.kind == Reinstall)
            && IsUuid(r.generation)
  {
    RunKeepsInv(run, n);
  }

  /** The same holds of the users in a receipt; those of a removal are all disabled. */
  lemma ReceiptsAreWellFormed(run: History, n: nat)
    requires IsRun(run) && n < |run.worlds|
    ensures run.worlds[n].removal.Some? ==>
              var receipt := run.worlds[n].removal.value;
              var ps := receipt.participants;
              && IsUuid(receipt.producer)
              && (forall i, j :: 0 <= i < j < |ps| ==> ps[i].uid < ps[j].uid)
              && (forall i :: 0 <= i < |ps| ==>
                    ps[i].settlement == Disabled && (ps[i].runtimeDevice == None <==> ps[i].runtimeInode == None))
    ensures run.worlds[n].install.Some? ==>
              var receipt := run.worlds[n].install.value;
              var ps := receipt.participants;
              && IsUuid(receipt.installGeneration) && IsUuid(receipt.predecessor)
              && (forall i, j :: 0 <= i < j < |ps| ==> ps[i].uid < ps[j].uid)
              && (forall i :: 0 <= i < |ps| ==> (ps[i].runtimeDevice == None <==> ps[i].runtimeInode == None))
  {
    RunKeepsInv(run, n);
  }

  // ---- one operation, from its record to its clearing ----

  /** The record is never cleared from `i` up to `j`. */
  ghost predicate Uncleared(run: History, i: nat, j: nat)
    requires i <= j <= |run.events|
  {
    forall n :: i <= n < j ==> !run.events[n].RecordCleared?
  }

  /**
   * `later` is a later state of the same operation: the same generation, versions, users and choices; a settlement
   * once made is final; a rollback stays a rollback; a removal may only become a purge.
   */
  ghost predicate SameOperation(r: Record, later: Record) {
    && r.generation == later.generation
    && r.sourceVersion == later.sourceVersion && r.targetVersion == later.targetVersion
    && r.predecessor == later.predecessor
    && (r.kind == later.kind || (r.kind.Remove? && later.kind.Purge? && r.disposition.Forward?))
    && (r.disposition.Rollback? ==> later.disposition.Rollback?)
    && SameChoices(r.participants, later.participants)
    && (forall k :: 0 <= k < |r.participants| && !r.participants[k].settlement.Pending? ==>
          later.participants[k].settlement == r.participants[k].settlement)
  }

  /** The steps that may change the record, the intent, the removal receipt or the history. */
  predicate IsProtocolWrite(e: Event) {
    e.IntentWritten? || e.IntentAdopted? || e.IntentCleared? || e.RecordCreated? || e.ReinstallCreated?
    || e.PurgeMarked? || e.RuntimeRecorded? || e.StopsRecorded? || e.SettlingBegun? || e.ParticipantSettled?
    || e.RemovalWritten? || e.FinalizingReached? || e.RolledBack? || e.PurgeFinalized? || e.RemovalConsumed?
    || e.RecordCleared? || e.RemovalPurged? || e.BootstrapWritten? || e.BootstrapUnwound?
  }

  lemma OtherStepsFrame(w: World, e: Event, w': World)
    requires Step(w, e, w') && !IsProtocolWrite(e)
    ensures w'.record == w.record && w'.intent == w.intent && w'.removal == w.removal && w'.past == w.past
  {
  }

  /** Steps that rewrite the participants or the kind of the record. */
  predicate IsRewrite(e: Event) {
    e.PurgeMarked? || e.RuntimeRecorded? || e.ParticipantSettled? || e.PurgeFinalized?
  }

  lemma RewriteKeepsOperation(w: World, e: Event, w': World)
    requires Inv(w) && Step(w, e, w') && w.record.Some? && IsRewrite(e)
    ensures w'.record.Some? && SameOperation(w.record.value, w'.record.value)
  {
    match e
    case PurgeMarked(r) => assert SameOperation(w.record.value, r);
    case RuntimeRecorded(i, identity) => assert SameOperation(w.record.value, w'.record.value);
    case ParticipantSettled(i, s) => assert SameOperation(w.record.value, w'.record.value);
    case PurgeFinalized => assert SameOperation(w.record.value, w'.record.value);
  }

  lemma StepKeepsOperation(w: World, e: Event, w': World)
    requires Inv(w) && Step(w, e, w') && w.record.Some? && !e.RecordCleared?
    ensures w'.record.Some? && SameOperation(w.record.value, w'.record.value)
  {
    if !IsProtocolWrite(e) {
      OtherStepsFrame(w, e, w');
    } else if IsRewrite(e) {
      RewriteKeepsOperation(w, e, w');
    }
  }

  lemma {:induction false} OperationIsStable(run: History, i: nat, j: nat)
    requires IsRun(run) && i <= j <= |run.events| && Uncleared(run, i, j)
    requires run.worlds[i].record.Some?
    ensures run.worlds[j].record.Some? && SameOperation(run.worlds[i].record.value, run.worlds[j].record.value)
  {
    if i < j {
      OperationIsStable(run, i, j - 1);
      RunKeepsInv(run, j - 1);
      assert StepAt(run, Step, j - 1);
      StepKeepsOperation(run.worlds[j - 1], run.events[j - 1], run.worlds[j]);
    }
  }

  lemma EffectAddressesPending(w: World, op: EffectOp, uid: Uid, w': World, k: nat)
    requires Inv(w) && EffectStep(w, op, uid, w') && Restoring(w.record.value)
    requires k < |w.record.value.participants| && w.record.value.participants[k].uid == uid
    ensures w.record.value.participants[k].settlement.Pending?
  {
    var ps := w.record.value.participants;
    var m :| 0 <= m < |ps| && ps[m].uid == uid
             && (ps[m].settlement.Pending? || (w.record.value.kind.Purge? && op.Cleanup?));
    assert m == k;
  }

  /** A user settled by an upgrade, a reinstall or a rollback is left alone until the operation ends. */
  lemma NoEffectAfterSettlement(run: History, i: nat, j: nat, k: nat)
    requires IsRun(run) && i <= j < |run.events| && Uncleared(run, i, j)
    requires run.worlds[i].record.Some? && Restoring(run.worlds[i].record.value)
    requires k < |run.worlds[i].record.value.participants|
    requires !run.worlds[i].record.value.participants[k].settlement.Pending?
    ensures forall op :: run.events[j] != EffectRun(op, run.worlds[i].record.value.participants[k].uid)
  {
    OperationIsStable(run, i, j);
    RunKeepsInv(run, j);
    match run.events[j]
    case EffectRun(op, uid) =>
      if uid == run.worlds[j].record.value.participants[k].uid {
        assert StepAt(run, Step, j);
        EffectAddressesPending(run.worlds[j], op, uid, run.worlds[j + 1], k);
      }
    case _ =>
  }

  /**
   * However often an upgrade, a reinstall or a rollback crashed and was resumed, when its record is cleared every
   * user's manager holds the choice recorded for that user.
   */
  lemma RestoredWhenCleared(run: History, i: nat, j: nat)
    requires IsRun(run) && i <= j < |run.events| && Uncleared(run, i, j) && run.events[j].RecordCleared?
    requires run.worlds[i].record.Some? && run.worlds[j].record.Some? && Restoring(run.worlds[j].record.value)
    ensures var ps := run.worlds[i].record.value.participants;
            forall k :: 0 <= k < |ps| ==> (ps[k].uid in run.worlds[j + 1].enabled <==> ps[k].enabled)
  {
    OperationIsStable(run, i, j);
    RunKeepsInv(run, j);
    assert StepAt(run, Step, j);
    var p, q := run.worlds[i].record.value.participants, run.worlds[j].record.value.participants;
    forall k | 0 <= k < |p| ensures ChoiceHeld(run.worlds[j + 1], p[k]) {
      assert ChoiceHeld(run.worlds[j], q[k]);
    }
  }

  lemma ProtocolWritesLeaveUsers(w: World, e: Event, w': World)
    requires Step(w, e, w') && IsProtocolWrite(e)
    ensures w'.enabled == w.enabled && w'.registered == w.registered
  {
  }

  lemma ForwardRemovalOnlyDisables(w: World, e: Event, w': World)
    requires Inv(w) && Step(w, e, w') && w.record.Some? && w'.record.Some?
    requires w.record.value.kind.Remove? || w.record.value.kind.Purge?
    requires w.record.value.disposition.Forward? && w'.record.value.disposition.Forward?
    ensures w'.enabled <= w.enabled && w'.registered <= w.registered
    ensures forall uid :: e != EffectRun(Restore, uid)
  {
    if IsProtocolWrite(e) {
      ProtocolWritesLeaveUsers(w, e, w');
    }
  }

  /** While a removal or a purge goes forward, nobody is restored and nobody's provider is enabled or started anew. */
  lemma {:induction false} ForwardRemovalNeverRestores(run: History, i: nat, j: nat)
    requires IsRun(run) && i <= j <= |run.events| && Uncleared(run, i, j)
    requires run.worlds[i].record.Some?
    requires run.worlds[i].record.value.kind.Remove? || run.worlds[i].record.value.kind.Purge?
    requires run.worlds[j].record.Some? && run.worlds[j].record.value.disposition.Forward?
    ensures run.worlds[j].enabled <= run.worlds[i].enabled && run.worlds[j].registered <= run.worlds[i].registered
    ensures forall n, uid :: i <= n < j ==> run.events[n] != EffectRun(Restore, uid)
  {
    if i < j {
      OperationIsStable(run, i, j - 1);
      OperationIsStable(run, j - 1, j);
      RunKeepsInv(run, j - 1);
      assert StepAt(run, Step, j - 1);
      ForwardRemovalOnlyDisables(run.worlds[j - 1], run.events[j - 1], run.worlds[j]);
      ForwardRemovalNeverRestores(run, i, j - 1);
    }
  }

  // ---- forward completion against rollback ----

  lemma StepGrowsPast(w: World, e: Event, w': World)
    requires Step(w, e, w')
    ensures forall g :: g in w.past.issued ==> g in w'.past.issued && (Inv(w) ==> w'.past.issued[g] == w.past.issued[g])
    ensures w.past.receipted <= w'.past.receipted && w.past.rolledBack <= w'.past.rolledBack
  {
    if !IsProtocolWrite(e) {
      OtherStepsFrame(w, e, w');
    }
  }

  lemma {:induction false} PastGrows(run: History, i: nat, j: nat)
    requires IsRun(run) && i <= j <= |run.events|
    ensures run.worlds[i].past.issued.Keys <= run.worlds[j].past.issued.Keys
    ensures run.worlds[i].past.receipted <= run.worlds[j].past.receipted
    ensures run.worlds[i].past.rolledBack <= run.worlds[j].past.rolledBack
  {
    if i < j {
      PastGrows(run, i, j - 1);
      assert StepAt(run, Step, j - 1);
      StepGrowsPast(run.worlds[j - 1], run.events[j - 1], run.worlds[j]);
    }
  }

  /** In every run: a generation that was rolled back never writes a removal receipt, is never resumed or purged. */
  lemma RolledBackIsNeverReceipted(run: History, i: nat, j: nat, g: Generation)
    requires IsRun(run) && i <= j <= |run.events| && g in run.worlds[i].past.rolledBack
    ensures run.worlds[j].removal.Some? ==> run.worlds[j].removal.value.producer != g
    ensures run.worlds[j].record.Some? && run.worlds[j].record.value.generation == g ==>
              run.worlds[j].record.value.disposition.Rollback?
  {
    PastGrows(run, i, j);
    RunKeepsInv(run, j);
  }

  /** Whoever finishes an operation does so after its prepare has returned: no intent of the generation is pending. */
  ghost predicate Disciplined(run: History)
    requires IsRun(run)
  {
    forall n :: 0 <= n < |run.events| && run.events[n].RecordCleared? && run.worlds[n].intent.Some? ==>
      run.worlds[n].record.Some? ==> run.worlds[n].intent.value.generation != run.worlds[n].record.value.generation
  }

  /** A generation with a receipt survives only in its own unfinished record. */
  ghost predicate ReceiptedSettled(w: World) {
    && w.past.receipted !! w.past.rolledBack
    && (w.intent.Some? && w.intent.value.generation in w.past.receipted ==>
          w.record.Some? && w.record.value.generation == w.intent.value.generation)
    && (w.record.Some? && w.record.value.generation in w.past.receipted ==>
          || w.record.value.kind.Purge?
          || (&& w.record.value.disposition.Forward?
              && (w.record.value.phase.Settling? || w.record.value.phase.Finalizing?)))
  }

  /** Steps that put a record in place or change what becomes of it. */
  predicate BeginsOrTurns(e: Event) {
    e.RecordCreated? || e.ReinstallCreated? || e.PurgeMarked? || e.RolledBack?
  }

  lemma BeginningKeepsReceiptedSettled(w: World, e: Event, w': World)
    requires Inv(w) && Step(w, e, w') && ReceiptedSettled(w) && BeginsOrTurns(e)
    ensures ReceiptedSettled(w')
  {
    match e
    case RecordCreated(r) => assert ReceiptedSettled(w');
    case ReinstallCreated(r) => assert ReceiptedSettled(w');
    case PurgeMarked(r) => assert ReceiptedSettled(w');
    case RolledBack => assert ReceiptedSettled(w');
  }

  lemma StepKeepsReceiptedSettled(w: World, e: Event, w': World)
    requires Inv(w) && Step(w, e, w') && ReceiptedSettled(w)
    requires e.RecordCleared? && w.intent.Some? && w.record.Some? ==>
               w.intent.value.generation != w.record.value.generation
    ensures ReceiptedSettled(w')
  {
    if !IsProtocolWrite(e) {
      OtherStepsFrame(w, e, w');
    } else if BeginsOrTurns(e) {
      BeginningKeepsReceiptedSettled(w, e, w');
    }
  }

  lemma DisciplinedStepKeepsSettled(run: History, n: nat)
    requires IsRun(run) && Disciplined(run) && n < |run.events| && ReceiptedSettled(run.worlds[n])
    ensures ReceiptedSettled(run.worlds[n + 1])
  {
    RunKeepsInv(run, n);
    assert StepAt(run, Step, n);
    StepKeepsReceiptedSettled(run.worlds[n], run.events[n], run.worlds[n + 1]);
  }

  /** In every disciplined run no generation both produces a removal receipt and is rolled back, in either order. */
  lemma {:induction false} CompletionExcludesRollback(run: History, n: nat)
    requires IsRun(run) && Disciplined(run) && n < |run.worlds| && ReceiptedSettled(run.worlds[0])
    ensures ReceiptedSettled(run.worlds[n])
    ensures run.worlds[n].past.receipted !! run.worlds[n].past.rolledBack
  {
    if n > 0 {
      CompletionExcludesRollback(run, n - 1);
      DisciplinedStepKeepsSettled(run, n - 1);
    }
  }

  /** Nothing durable carries the generation any more. */
  ghost predicate Forgotten(w: World, g: Generation) {
    && g in w.past.issued
    && (w.record.Some? ==> w.record.value.generation != g)
    && (w.intent.Some? ==> w.intent.value.generation != g)
    && (w.removal.Some? ==> w.removal.value.producer != g)
  }

  lemma StepKeepsForgotten(w: World, e: Event, w': World, g: Generation)
    requires Inv(w) && Step(w, e, w') && Forgotten(w, g)
    ensures Forgotten(w', g)
    ensures g in w'.past.rolledBack ==> g in w.past.rolledBack
  {
    if !IsProtocolWrite(e) {
      OtherStepsFrame(w, e, w');
    } else {
      match e
      case RecordCreated(r) => assert Forgotten(w', g);
      case ReinstallCreated(r) => assert Forgotten(w', g);
      case PurgeMarked(r) => assert Forgotten(w', g);
      case _ =>
    }
  }

  lemma {:induction false} ForgottenForever(run: History, g: Generation, n: nat)
    requires IsRun(run) && n < |run.worlds| && Forgotten(run.worlds[0], g)
    ensures Forgotten(run.worlds[n], g)
    ensures g in run.worlds[n].past.rolledBack ==> g in run.worlds[0].past.rolledBack
  {
    if n > 0 {
      ForgottenForever(run, g, n - 1);
      RunKeepsInv(run, n - 1);
      assert StepAt(run, Step, n - 1);
      StepKeepsForgotten(run.worlds[n - 1], run.events[n - 1], run.worlds[n], g);
    }
  }

  /** A removal taken up again from its intent, then turned back. */
  lemma RevivedRun(w: World, g: Generation) returns (run: History)
    requires Inv(w) && w.record.None? && (w.removal.Some? ==> w.removal.value.producer != g)
    requires w.intent.Some? && w.intent.value.generation == g && w.intent.value.kind.Remove?
    ensures IsRun(run) && run.worlds[0] == w && g in Last(run).past.rolledBack
  {
    var ps := DiscoveryExists(w, w.acks.Keys);
    var i := w.intent.value;
    var r := Record(Forward, g, Remove, IntentRecorded, i.sourceVersion, i.targetVersion, None, ps);
    run := Extend(Start(w), RecordCreated(r), w.(record := Some(r)));
    run := Extend(run, RolledBack,
                  Last(run).(record := Some(r.(disposition := Rollback, phase := Settling)),
                             past := w.past.(rolledBack := w.past.rolledBack + {g})));
  }

  /**
   * Finishing does not clear the quiesce intent, so without discipline the exclusion fails: once its receipt is gone,
   * a generation that completed a removal can still be rolled back exactly when an intent of that generation is left.
   */
  lemma LingeringIntentRevivesGeneration(w: World, g: Generation)
    requires Inv(w) && w.record.None? && g in w.past.receipted - w.past.rolledBack
    requires w.removal.Some? ==> w.removal.value.producer != g
    ensures (exists run :: IsRun(run) && run.worlds[0] == w && g in Last(run).past.rolledBack)
       <==> (w.intent.Some? && w.intent.value.generation == g && w.intent.value.kind.Remove?)
  {
    if w.intent.Some? && w.intent.value.generation == g && w.intent.value.kind.Remove? {
      var run := RevivedRun(w, g);
    } else if exists run :: IsRun(run) && run.worlds[0] == w && g in Last(run).past.rolledBack {
      var run :| IsRun(run) && run.worlds[0] == w && g in Last(run).past.rolledBack;
      if w.intent.Some? && w.intent.value.generation == g {
        // an upgrade intent of this generation: generations keep their kind
        GenerationKeepsKind(run, g, |run.events|);
        RunKeepsInv(run, |run.events|);
      } else {
        ForgottenForever(run, g, |run.events|);
      }
      assert false;
    }
  }

  lemma {:induction false} GenerationKeepsKind(run: History, g: Generation, n: nat)
    requires IsRun(run) && n < |run.worlds| && g in run.worlds[0].past.issued
    ensures g in run.worlds[n].past.issued && run.worlds[n].past.issued[g] == run.worlds[0].past.issued[g]
  {
    if n > 0 {
      GenerationKeepsKind(run, g, n - 1);
      RunKeepsInv(run, n - 1);
      assert StepAt(run, Step, n - 1);
      StepGrowsPast(run.worlds[n - 1], run.events[n - 1], run.worlds[n]);
    }
  }

  // ---- removal, then reinstall ----

  /** A machine on which no package operation has happened yet. */
  ghost predicate Pristine(w: World) {
    && UsersInv(w)
    && w.record.None? && w.intent.None? && w.removal.None? && w.install.None?
    && w.controllers == {} && w.past == Past(map[], {}, {})
  }

  /** Before `n` a removal of this generation was begun that found these users with these choices. */
  ghost predicate FoundAtRemoval(run: History, n: nat, g: Generation, ps: seq<Participant>)
    requires n <= |run.events|
  {
    exists i :: 0 <= i < n && BegunAt(run, i, g, ps)
  }

  ghost predicate BegunAt(run: History, i: nat, g: Generation, ps: seq<Participant>)
    requires i < |run.events|
  {
    && run.events[i].RecordCreated? && run.events[i].record.kind.Remove? && run.events[i].record.generation == g
    && SameChoices(run.events[i].record.participants, ps)
  }

  lemma FoundStays(run: History, n: nat, m: nat, g: Generation, ps: seq<Participant>, qs: seq<Participant>)
    requires n <= m <= |run.events| && FoundAtRemoval(run, n, g, ps) && SameChoices(ps, qs)
    ensures FoundAtRemoval(run, m, g, qs)
  {
    var i :| 0 <= i < n && BegunAt(run, i, g, ps);
    assert BegunAt(run, i, g, qs);
  }

  /** Every removal, receipt and reinstall of the run names exactly the users and choices found at the removal. */
  ghost predicate ChoicesTraced(run: History, n: nat)
    requires n < |run.worlds| && |run.worlds| == |run.events| + 1
  {
    RecordTraced(run, n) && RemovalTraced(run, n) && InstallTraced(run, n)
  }

  ghost predicate RecordTraced(run: History, n: nat)
    requires n < |run.worlds| && |run.worlds| == |run.events| + 1
  {
    run.worlds[n].record.Some? ==>
      var r := run.worlds[n].record.value;
      && (r.kind.Remove? ==> FoundAtRemoval(run, n, r.generation, r.participants))
      && (r.kind.Reinstall? ==> r.predecessor.Some? && FoundAtRemoval(run, n, r.predecessor.value, r.participants))
  }

  ghost predicate RemovalTraced(run: History, n: nat)
    requires n < |run.worlds| && |run.worlds| == |run.events| + 1
  {
    run.worlds[n].removal.Some? ==>
      FoundAtRemoval(run, n, run.worlds[n].removal.value.producer, run.worlds[n].removal.value.participants)
  }

  ghost predicate InstallTraced(run: History, n: nat)
    requires n < |run.worlds| && |run.worlds| == |run.events| + 1
  {
    run.worlds[n].install.Some? ==>
      FoundAtRemoval(run, n, run.worlds[n].install.value.predecessor, run.worlds[n].install.value.participants)
  }

  lemma RemovalOrigin(w: World, e: Event, w': World)
    requires Step(w, e, w') && w'.removal.Some? && w'.removal != w.removal
    ensures w.record.Some? && w.record.value.kind.Remove? && w'.removal == Some(ExactRemoval(w.record.value))
  {
  }

  lemma InstallOrigin(w: World, e: Event, w': World)
    requires Step(w, e, w') && w'.install.Some? && w'.install != w.install
    ensures w.record.Some? && w.record.value.kind.Reinstall? && w.record.value.predecessor.Some?
    ensures w'.install == Some(ExactInstall(w.record.value))
  {
  }

  lemma RemoveRecordOrigin(w: World, e: Event, w': World)
    requires Step(w, e, w') && w.record.None? && w'.record.Some? && w'.record.value.kind.Remove?
    ensures e == RecordCreated(w'.record.value)
  {
  }

  lemma ReinstallRecordOrigin(w: World, e: Event, w': World)
    requires Step(w, e, w') && w.record.None? && w'.record.Some? && w'.record.value.kind.Reinstall?
    ensures w.removal.Some? && w'.record.value.predecessor == Some(w.removal.value.producer)
    ensures w'.record.value.participants == Settled(w.removal.value.participants, Pending)
  {
  }

  lemma RemovalTracedStep(run: History, n: nat)
    requires IsRun(run) && n < |run.events| && ChoicesTraced(run, n)
    ensures RemovalTraced(run, n + 1)
  {
    var w, w' := run.worlds[n], run.worlds[n + 1];
    assert StepAt(run, Step, n);
    if w'.removal.Some? {
      if w'.removal != w.removal {
        RemovalOrigin(w, run.events[n], w');
      }
      var ps := w'.removal.value.participants;
      FoundStays(run, n, n + 1, w'.removal.value.producer, ps, ps);
    }
  }

  lemma InstallTracedStep(run: History, n: nat)
    requires IsRun(run) && n < |run.events| && ChoicesTraced(run, n)
    ensures InstallTraced(run, n + 1)
  {
    var w, w' := run.worlds[n], run.worlds[n + 1];
    assert StepAt(run, Step, n);
    if w'.install.Some? {
      if w'.install != w.install {
        InstallOrigin(w, run.events[n], w');
      }
      var ps := w'.install.value.participants;
      FoundStays(run, n, n + 1, w'.install.value.predecessor, ps, ps);
    }
  }

  lemma RecordTracedStep(run: History, n: nat)
    requires IsRun(run) && n < |run.events| && ChoicesTraced(run, n)
    ensures RecordTraced(run, n + 1)
  {
    var w, e, w' := run.worlds[n], run.events[n], run.worlds[n + 1];
    assert StepAt(run, Step, n);
    RunKeepsInv(run, n);
    if w'.record.Some? {
      var r' := w'.record.value;
      if w.record.None? {
        if r'.kind.Remove? {
          RemoveRecordOrigin(w, e, w');
          assert BegunAt(run, n, r'.generation, r'.participants);
        } else if r'.kind.Reinstall? {
          ReinstallRecordOrigin(w, e, w');
          FoundStays(run, n, n + 1, r'.predecessor.value, w.removal.value.participants, r'.participants);
        }
      } else if r'.kind.Remove? || r'.kind.Reinstall? {
        RecordStaysStep(run, n);
        var g := if r'.kind.Remove? then r'.generation else r'.predecessor.value;
        FoundStays(run, n, n + 1, g, w.record.value.participants, r'.participants);
      }
    }
  }

  lemma RecordStaysStep(run: History, n: nat)
    requires IsRun(run) && n < |run.events| && run.worlds[n].record.Some? && run.worlds[n + 1].record.Some?
    ensures SameOperation(run.worlds[n].record.value, run.worlds[n + 1].record.value)
    ensures run.worlds[n + 1].record.value.kind.Reinstall? ==> run.worlds[n + 1].record.value.predecessor.Some?
  {
    RunKeepsInv(run, n);
    RunKeepsInv(run, n + 1);
    assert StepAt(run, Step, n);
    StepKeepsOperation(run.worlds[n], run.events[n], run.worlds[n + 1]);
  }

  lemma {:induction false} ChoicesAlwaysTraced(run: History, n: nat)
    requires IsRun(run) && n < |run.worlds| && Pristine(run.worlds[0])
    ensures ChoicesTraced(run, n)
  {
    if n > 0 {
      ChoicesAlwaysTraced(run, n - 1);
      RecordTracedStep(run, n - 1);
      RemovalTracedStep(run, n - 1);
      InstallTracedStep(run, n - 1);
    }
  }

  /**
   * Removal and reinstall, each crashed and resumed any number of times: when the reinstall's record is cleared, the
   * install receipt names the removal generation and exactly the users and choices found when that removal began,
   * those users' managers hold those choices, and the removal receipt is gone.
   */
  lemma ReinstallRestoresRemovedChoices(run: History, n: nat)
    requires IsRun(run) && n < |run.events| && Pristine(run.worlds[0])
    requires run.events[n].RecordCleared? && run.worlds[n].record.Some? && run.worlds[n].record.value.kind.Reinstall?
    ensures run.worlds[n + 1].removal.None? && run.worlds[n + 1].install.Some?
    ensures var receipt := run.worlds[n + 1].install.value;
            && receipt.installGeneration == run.worlds[n].record.value.generation
            && FoundAtRemoval(run, n, receipt.predecessor, receipt.participants)
            && forall k :: 0 <= k < |receipt.participants| ==>
                 (receipt.participants[k].uid in run.worlds[n + 1].enabled <==> receipt.participants[k].enabled)
  {
    RunKeepsInv(run, n);
    ChoicesAlwaysTraced(run, n);
    assert StepAt(run, Step, n);
    RestoredWhenCleared(run, n, n);
  }

  ghost predicate HandedOver(run: History, i: nat, j: nat)
    requires i <= j <= |run.events|
  {
    exists n :: i <= n < j && run.events[n].ControllerMoved?
  }

  lemma ReinstallStepMovesController(w: World, e: Event, w': World)
    requires Inv(w) && Step(w, e, w') && w.record.Some? && w.record.value.kind.Reinstall?
    ensures w.record.value.predecessor.Some?
    ensures var g := w.record.value.predecessor.value;
            g in w'.controllers <==> g in w.controllers && !e.ControllerMoved?
  {
    if IsProtocolWrite(e) {
      assert w'.controllers == w.controllers;
    } else if e.ControllerRetired? {
      assert w.record.value.predecessor.value != w.record.value.generation;
    }
  }

  /**
   * The removal's controller goes to the reinstall in one move, or not at all: finishing a reinstall whose preparation
   * was cut short before that move leaves the removal's controller behind, and it is the only way to leave it.
   */
  lemma {:induction false} ControllerHandover(run: History, i: nat, j: nat)
    requires IsRun(run) && i <= j <= |run.events| && Uncleared(run, i, j)
    requires run.worlds[i].record.Some? && run.worlds[i].record.value.kind.Reinstall?
    ensures run.worlds[i].record.value.predecessor.Some?
    ensures var g := run.worlds[i].record.value.predecessor.value;
            g in run.worlds[j].controllers <==> g in run.worlds[i].controllers && !HandedOver(run, i, j)
  {
    RunKeepsInv(run, i);
    if i < j {
      ControllerHandover(run, i, j - 1);
      OperationIsStable(run, i, j - 1);
      RunKeepsInv(run, j - 1);
      assert StepAt(run, Step, j - 1);
      ReinstallStepMovesController(run.worlds[j - 1], run.events[j - 1], run.worlds[j]);
      assert HandedOver(run, i, j) <==> HandedOver(run, i, j - 1) || run.events[j - 1].ControllerMoved?;
    }
  }

  lemma PristineInv(w: World)
    requires Pristine(w)
    ensures Inv(w) && ReceiptedSettled(w)
  {
  }
}
