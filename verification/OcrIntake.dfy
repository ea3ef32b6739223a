/**
 * Preparing, re-entering and recovering OCR handoffs. A root run has one handoff: whoever comes back to it, and however
 * often, finds what was stored when it was prepared, and gets the child run that was named then.
 */
module OcrIntake {
  import opened Faults
  import opened Wrappers
  import opened OcrContent
  import opened OcrHandoff
  import opened OcrRunner

  type Root = string

  class Intake {
    var stores: map<Root, HandoffStore>
    const codec: Codec
    const faulty: bool

    constructor (codec: Codec, faulty: bool)
      ensures Valid() && stores == map[] && this.codec == codec && this.faulty == faulty
    {
      this.codec, this.faulty, stores := codec, faulty, map[];
    }

    /** Every root has a handoff of its own, and no two name the same child. */
    ghost predicate Valid()
      reads this, stores.Values
    {
      && (forall root :: root in stores ==>
            stores[root].Valid() && stores[root].faulty == faulty && stores[root].db.codec == codec)
      && (forall root, other :: root in stores && other in stores && root != other ==>
            && stores[root] != stores[other]
            && stores[root].db.saved.childRunId != stores[other].db.saved.childRunId)
    }

    function ChildOf(root: Root): string
      requires root in stores
      reads this, stores.Values
    {
      stores[root].db.saved.childRunId
    }

    /** No handoff is lost, exchanged, or prepared anew. */
    twostate predicate Kept()
      reads this, stores.Values
    {
      forall root :: root in old(stores) ==>
        root in stores && stores[root] == old(stores[root]) && stores[root].db.saved == old(stores[root].db.saved)
    }

    /** Handoffs of other roots are left alone. */
    twostate predicate OnlyRoot(root: Root)
      reads this, stores.Values
    {
      && stores.Keys <= old(stores).Keys + {root}
      && forall other :: other in old(stores) && other != root ==>
           other in stores && stores[other] == old(stores[other]) && stores[other].db == old(stores[other].db)
    }

    predicate IsNewChild(child: string)
      reads this, stores.Values
    {
      forall root :: root in stores ==> stores[root].db.saved.childRunId != child
    }

    method Insert(root: Root, saved: Saved)
      requires Valid() && root !in stores && IsNewChild(saved.childRunId)
      modifies this
      ensures Valid() && Kept() && OnlyRoot(root)
      ensures root in stores && stores[root].db.saved == saved && fresh(stores[root])
    {
      var forgetful: bool := *;
      var store := new HandoffStore(codec, forgetful, saved, faulty);
      stores := stores[root := store];
    }

    /** Meanwhile somebody else may prepare the same root. */
    method PreparedElsewhere(root: Root, saved: Saved)
      requires Valid() && (root !in stores ==> IsNewChild(saved.childRunId))
      modifies this
      ensures Valid() && Kept() && OnlyRoot(root) && fresh(stores.Values - old(stores.Values))
      ensures root !in old(stores) && root in stores ==> stores[root].db.saved == saved
    {
      var prepared: bool := *;
      if prepared && root !in stores {
        Insert(root, saved);
      }
    }

    /** Stores a handoff for the root, unless it has one by now: that check is part of the same transaction. */
    method Admit(root: Root, source: Bytes, d: Document, n: Names, p: Provider) returns (o: Outcome<OcrError>)
      requires Valid() && CapabilityVersion(p.protocol).Some? && SourceIntact(source, d, codec)
      requires root !in stores ==> IsNewChild(n.childRunId)
      modifies this
      ensures Valid() && Kept() && OnlyRoot(root) && fresh(stores.Values - old(stores.Values))
      ensures o.Pass? ==> root in stores
      ensures root !in old(stores) && root in stores ==>
                Prepare(source, d, n, p, codec) == Some(stores[root].db.saved)
      ensures !faulty ==> (o.Pass? <==> root in old(stores) || Admissible(d, p))
    {
      var fault := Fault(faulty);
      if fault {
        return Fail(Store);
      }
      if root !in stores {
        if !Admissible(d, p) {
          return Fail(Store);
        }
        Insert(root, Prepare(source, d, n, p, codec).value);
      }
      o := Pass;
    }

    /** Prepares a handoff for a root that had none; `other` is what somebody else may prepare meanwhile. */
    method PrepareHandoff(root: Root, source: Bytes, d: Document, n: Names, p: Provider, other: Saved)
      returns (o: Outcome<OcrError>)
      requires Valid() && root !in stores && CapabilityVersion(p.protocol).Some?
      requires IsNewChild(n.childRunId) && IsNewChild(other.childRunId)
      modifies this
      ensures Valid() && Kept() && OnlyRoot(root) && fresh(stores.Values - old(stores.Values))
      ensures o.Pass? ==> root in stores && SourceIntact(source, d, codec)
      ensures root in stores ==>
                stores[root].db.saved == other || Prepare(source, d, n, p, codec) == Some(stores[root].db.saved)
    {
      if !SourceIntact(source, d, codec) {
        return Fail(InvalidOutput);
      }
      PreparedElsewhere(root, other);
      o := Admit(root, source, d, n, p);
    }

    /** Before anything else a cancellation is looked for: of the handoff, or of a root that has none yet. */
    method CheckCancelled(root: Root, rootCancelled: bool) returns (o: Outcome<OcrError>)
      requires Valid()
      modifies if root in stores then {stores[root]} else {}
      ensures Valid() && Kept() && OnlyRoot(root)
      ensures root !in stores ==> (o.Pass? <==> !rootCancelled)
    {
      if root in stores {
        o := stores[root].CancellationCheckpoint(stores[root].db.phase);
      } else {
        o := if rootCancelled then Fail(Cancelled) else Pass;
      }
    }

    /** Runs the root's handoff with the provider it was prepared for, and with no other. */
    method RunPrepared(root: Root, p: Provider, start: nat, deadline: nat) returns (child: Result<string, OcrError>)
      requires Valid() && root in stores
      modifies stores[root]
      ensures Valid() && Kept() && OnlyRoot(root)
      ensures child.Ok? ==> child.value == ChildOf(root) && IsAdmitted(stores[root].db.phase)
      ensures child.Ok? ==> Serves(p, stores[root].db.saved, codec)
      ensures !Serves(p, stores[root].db.saved, codec) ==>
                child == Err(Unavailable) && stores[root].db == old(stores[root].db)
      ensures p.appId != stores[root].db.saved.providerAppId
              || p.instanceId != stores[root].db.saved.providerInstanceId
              || codec.parse(stores[root].db.saved.requestJson).None?
              || codec.parse(stores[root].db.saved.requestJson).value.protocol != p.protocol ==>
                child == Err(Unavailable) && stores[root].db == old(stores[root].db)
    {
      if !Serves(p, stores[root].db.saved, codec) {
        return Err(Unavailable);
      }
      child := stores[root].RunUntil(start, deadline);
    }

    /** Looks for a cancellation and makes sure that the root has a handoff. */
    method FindOrPrepare(root: Root, source: Bytes, d: Document, n: Names, p: Provider, other: Saved,
                         rootCancelled: bool)
      returns (o: Outcome<OcrError>)
      requires Valid() && CapabilityVersion(p.protocol).Some?
      requires root !in stores ==> IsNewChild(n.childRunId) && IsNewChild(other.childRunId)
      modifies this, stores.Values
      ensures Valid() && Kept() && OnlyRoot(root) && fresh(stores.Values - old(stores.Values))
      ensures o.Pass? ==> root in stores
      ensures root !in old(stores) && rootCancelled ==> o.Fail? && root !in stores
    {
      o := CheckCancelled(root, rootCancelled);
      if o.Pass? && root !in stores {
        o := PrepareHandoff(root, source, d, n, p, other);
      }
    }

    /**
     * Finds or prepares the root's handoff and runs it. Whoever calls this for a root, and whatever failed before, the
     * child is the one named when the root's handoff was prepared, once and for all.
     */
    method Process(root: Root, source: Bytes, d: Document, n: Names, p: Provider, other: Saved, rootCancelled: bool,
                   start: nat, deadline: nat)
      returns (child: Result<string, OcrError>)
      requires Valid() && CapabilityVersion(p.protocol).Some?
      requires root !in stores ==> IsNewChild(n.childRunId) && IsNewChild(other.childRunId)
      modifies this, stores.Values
      ensures Valid() && Kept() && OnlyRoot(root) && fresh(stores.Values - old(stores.Values))
      ensures child.Ok? ==> root in stores && child.value == ChildOf(root) && IsAdmitted(stores[root].db.phase)
      ensures child.Ok? ==> stores[root].db.phase == ChildAdmitted || stores[root].db.phase == Completed
      ensures child.Ok? && root in old(stores) ==> child.value == old(ChildOf(root))
      ensures child.Ok? ==> Serves(p, stores[root].db.saved, codec)
      ensures root !in old(stores) && rootCancelled ==> child.Err? && root !in stores
    {
      var o := FindOrPrepare(root, source, d, n, p, other, rootCancelled);
      if o.Fail? {
        return Err(o.error);
      }
      child := RunPrepared(root, p, start, deadline);
    }

    // ---- recovery after a restart ----

    /** The provider that serves the handoff, if it is among those found. */
    method ChooseProvider(root: Root, providers: seq<Provider>) returns (chosen: Option<Provider>)
      requires Valid() && root in stores
      ensures chosen.Some? ==> chosen.value in providers && Serves(chosen.value, stores[root].db.saved, codec)
      ensures chosen.None? ==> forall p :: p in providers ==> !Serves(p, stores[root].db.saved, codec)
    {
      for k := 0 to |providers|
        invariant forall j :: 0 <= j < k ==> !Serves(providers[j], stores[root].db.saved, codec)
      {
        if Serves(providers[k], stores[root].db.saved, codec) {
          return Some(providers[k]);
        }
      }
      chosen := None;
    }

    /** Runs the handoff with whichever of these providers serves it. */
    method RunServed(root: Root, providers: seq<Provider>, start: nat, deadline: nat)
      returns (child: Result<string, OcrError>)
      requires Valid() && root in stores
      modifies stores[root]
      ensures Valid() && Kept() && OnlyRoot(root)
      ensures child.Ok? ==> child.value == ChildOf(root) && IsAdmitted(stores[root].db.phase)
    {
      var p := ChooseProvider(root, providers);
      if p.None? {
        return Err(Unavailable);
      }
      child := RunPrepared(root, p.value, start, deadline);
    }

    /** Names the child of a handoff that was admitted already. */
    method RecoverAdmitted(root: Root) returns (child: Result<string, OcrError>)
      requires Valid() && root in stores && IsAdmitted(stores[root].db.phase)
      modifies stores[root]
      ensures Valid() && Kept() && OnlyRoot(root)
      ensures child.Ok? ==> child.value == ChildOf(root) && IsAdmitted(stores[root].db.phase)
      ensures !faulty ==> child.Ok?
    {
      var o := stores[root].CancellationCheckpoint(stores[root].db.phase);
      if o.Pass? {
        o := stores[root].Materialize();
      }
      child := if o.Fail? then Err(o.error) else Ok(stores[root].db.saved.childRunId);
    }

    /** Takes one handoff up again; one whose child is admitted needs no provider. */
    method RecoverOne(root: Root, controlled: bool, providers: seq<Provider>, start: nat, deadline: nat)
      returns (child: Result<string, OcrError>)
      requires Valid() && root in stores
      modifies stores[root]
      ensures Valid() && Kept() && OnlyRoot(root)
      ensures child.Ok? ==> child.value == ChildOf(root) && IsAdmitted(stores[root].db.phase)
      ensures !controlled && !IsAdmitted(old(stores[root].db.phase)) ==>
                child.Err? && stores[root].db == old(stores[root].db)
      ensures !faulty && IsAdmitted(old(stores[root].db.phase)) ==> child.Ok?
    {
      if IsAdmitted(stores[root].db.phase) {
        child := RecoverAdmitted(root);
      } else if !controlled {
        child := Err(Unavailable);
      } else {
        var o := CheckCancelled(root, false);
        if o.Fail? {
          return Err(o.error);
        }
        child := RunServed(root, providers, start, deadline);
      }
    }

    /** Each of these roots has its child admitted, and the child is the one named. */
    ghost predicate Admits(children: map<Root, string>)
      reads this, stores.Values
    {
      forall root :: root in children ==>
        root in stores && children[root] == ChildOf(root) && IsAdmitted(stores[root].db.phase)
    }

    /** One turn of the recovery: notes the root's child if the handoff could be taken up. */
    method RecoverNext(children: map<Root, string>, root: Root, controlled: bool, providers: seq<Provider>,
                       start: nat, deadline: nat)
      returns (later: map<Root, string>)
      requires Valid() && root in stores && root !in children && Admits(children)
      modifies stores[root]
      ensures Valid() && Kept() && OnlyRoot(root) && Admits(later)
      ensures forall other :: other != root ==> (other in later <==> other in children)
      ensures !faulty && IsAdmitted(old(stores[root].db.phase)) ==> root in later
    {
      var child := RecoverOne(root, controlled, providers, start, deadline);
      later := if child.Ok? then children[root := child.value] else children;
      forall other | other in later
        ensures other in stores && later[other] == ChildOf(other) && IsAdmitted(stores[other].db.phase)
      {
        if other != root {
          assert other in children && stores[other].db == old(stores[other].db);
        }
      }
    }

    /** Takes up the listed handoffs one after the other; a failure of one does not keep the others from it. */
    method Recover(roots: seq<Root>, controls: set<Root>, providers: seq<Provider>, start: nat, deadline: nat)
      returns (children: map<Root, string>)
      requires Valid() && (forall k :: 0 <= k < |roots| ==> roots[k] in stores)
      requires forall i, j :: 0 <= i < j < |roots| ==> roots[i] != roots[j]
      modifies set k | 0 <= k < |roots| :: stores[roots[k]]
      ensures Valid() && Kept() && stores == old(stores) && Admits(children)
      ensures forall root :: root in children ==> root in roots
    {
      children := map[];
      for k := 0 to |roots|
        invariant Valid() && stores == old(stores) && Kept() && Admits(children)
        invariant forall j :: k <= j < |roots| ==> roots[j] !in children
        invariant forall root :: root in children ==> root in roots
      {
        children := RecoverNext(children, roots[k], roots[k] in controls, providers, start, deadline);
      }
    }

    // ---- any history ----

    /** One call for some root, with whatever names, documents and providers. */
    method ProcessSome() returns (answer: Option<(Root, string)>)
      requires Valid()
      modifies this, stores.Values
      ensures Valid() && Kept() && fresh(stores.Values - old(stores.Values))
      ensures answer.Some? ==> answer.value.0 in stores && answer.value.1 == ChildOf(answer.value.0)
    {
      var root: Root, source: Bytes, d: Document, n: Names := *, *, *, *;
      var p: Provider, other: Saved, cancelled: bool, start: int, deadline: int := *, *, *, *, *;
      answer := None;
      if start >= 0 && deadline >= 0 && CapabilityVersion(p.protocol).Some?
         && IsNewChild(n.childRunId) && IsNewChild(other.childRunId) {
        var child := Process(root, source, d, n, p, other, cancelled, start, deadline);
        answer := if child.Ok? then Some((root, child.value)) else None;
      }
    }

    /** A recovery of some of the handoffs, with whatever controls and providers. */
    method RecoverSome()
      requires Valid()
      modifies stores.Values
      ensures Valid() && Kept() && stores == old(stores)
    {
      var roots: seq<Root>, controls: set<Root>, providers: seq<Provider> := *, *, *;
      var start: int, deadline: int := *, *;
      if start >= 0 && deadline >= 0 && (forall k :: 0 <= k < |roots| ==> roots[k] in stores)
         && (forall i, j :: 0 <= i < j < |roots| ==> roots[i] != roots[j]) {
        var _ := Recover(roots, controls, providers, start, deadline);
      }
    }

    /** The root of each answer has the child answered, and no other root has it. */
    ghost predicate Answered(answers: seq<(Root, string)>)
      reads this, stores.Values
    {
      forall k :: 0 <= k < |answers| ==> answers[k].0 in stores && ChildOf(answers[k].0) == answers[k].1
    }

    /**
     * In any sequence of calls and recoveries, whatever fails in between, a root that is answered twice is answered the
     * same child, and two roots are never answered the same one.
     */
    method Operate(rounds: nat) returns (answers: seq<(Root, string)>)
      requires Valid()
      modifies this, stores.Values
      ensures Valid() && Kept() && Answered(answers)
      ensures forall i, j :: 0 <= i < |answers| && 0 <= j < |answers| ==>
                (answers[i].0 == answers[j].0 <==> answers[i].1 == answers[j].1)
    {
      answers := [];
      for round := 0 to rounds
        invariant Valid() && Kept() && fresh(stores.Values - old(stores.Values)) && Answered(answers)
      {
        RecoverSome();
        var answer := ProcessSome();
        if answer.Some? {
          answers := answers + [answer.value];
        }
      }
    }
  }
}
