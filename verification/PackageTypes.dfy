/** The durable files of the package operation controller, as values. */
module PackageTypes {
  import opened Integers
  import opened Wrappers
  import opened Text

  type Uid = nat
  type Generation = string
  type Version = string

  datatype PackageError = Storage | Conflict | Manager

  datatype Kind = Upgrade | Remove | Purge | Reinstall
  datatype Disposition = Forward | Rollback
  datatype Phase = IntentRecorded | PublishersStopped | Settling | Finalizing
  datatype Settlement = Pending | Disabled | DeferredEnabled | SuccessorReady

  /** The directory and account facts of a participant that no operation changes. */
  datatype Profile = Profile(user: string, runtimeRoot: string, appDataRoot: string, controlRoot: string,
                             managerLink: string, acknowledgement: Generation)

  datatype Participant = Participant(uid: Uid, profile: Profile, runtimeDevice: Option<nat>, runtimeInode: Option<nat>,
                                     enabled: bool, settlement: Settlement)

  datatype Record = Record(disposition: Disposition, generation: Generation, kind: Kind, phase: Phase,
                           sourceVersion: Version, targetVersion: Version, predecessor: Option<Generation>,
                           participants: seq<Participant>)

  datatype RemovalReceipt = RemovalReceipt(producer: Generation, removedVersion: Version,
                                           participants: seq<Participant>)

  datatype InstallReceipt = InstallReceipt(installGeneration: Generation, predecessor: Generation,
                                           installedVersion: Version, participants: seq<Participant>)

  datatype BootstrapPhase = Quarantining | Quiesced | Adopted

  datatype Bootstrap = Bootstrap(phase: BootstrapPhase, legacyDevice: U64, legacyInode: U64, legacySha256: string)

  datatype QuiesceIntent = QuiesceIntent(generation: Generation, kind: Kind, sourceVersion: Version,
                                         targetVersion: Version, bootstrap: Option<Bootstrap>)

  predicate Ascending(ps: seq<Participant>) {
    forall i, j :: 0 <= i < j < |ps| ==> ps[i].uid < ps[j].uid
  }

  /** Device and inode are recorded together or not at all. */
  predicate RuntimePaired(ps: seq<Participant>) {
    forall i :: 0 <= i < |ps| ==> (ps[i].runtimeDevice.Some? <==> ps[i].runtimeInode.Some?)
  }

  predicate Validate(r: Record, kind: Kind, target: Version) {
    && r.kind == kind
    && r.targetVersion == target
    && (r.disposition.Rollback? ==> r.kind.Remove? && (r.phase.Settling? || r.phase.Finalizing?))
    && IsUuid(r.generation)
    && (r.kind.Reinstall? <==> r.predecessor.Some?)
    && Ascending(r.participants)
    && RuntimePaired(r.participants)
  }

  predicate ValidateRemoval(receipt: RemovalReceipt) {
    IsUuid(receipt.producer) && Ascending(receipt.participants) && RuntimePaired(receipt.participants)
  }

  predicate ValidateInstall(receipt: InstallReceipt) {
    && IsUuid(receipt.installGeneration)
    && IsUuid(receipt.predecessor)
    && Ascending(receipt.participants)
    && RuntimePaired(receipt.participants)
  }

  /** Whether finishing this record gives users their recorded choice back. */
  predicate Restoring(r: Record) {
    r.kind.Upgrade? || r.kind.Reinstall? || r.disposition.Rollback?
  }

  predicate NonePending(ps: seq<Participant>) {
    forall i :: 0 <= i < |ps| ==> !ps[i].settlement.Pending?
  }

  predicate AllPending(ps: seq<Participant>) {
    forall i :: 0 <= i < |ps| ==> ps[i].settlement.Pending?
  }

  predicate AllDisabled(ps: seq<Participant>) {
    forall i :: 0 <= i < |ps| ==> ps[i].settlement.Disabled?
  }

  /** The two lists name the same users with the same choices; runtime identity and settlement may differ. */
  predicate SameChoices(ps: seq<Participant>, qs: seq<Participant>) {
    && |ps| == |qs|
    && forall i :: 0 <= i < |ps| ==>
      && ps[i].uid == qs[i].uid
      && ps[i].profile == qs[i].profile
      && ps[i].enabled == qs[i].enabled
  }

  function WithSettlement(r: Record, i: nat, s: Settlement): Record
    requires i < |r.participants|
  {
    r.(participants := r.participants[i := r.participants[i].(settlement := s)])
  }

  function WithRuntime(r: Record, i: nat, device: nat, inode: nat): Record
    requires i < |r.participants|
  {
    var p := r.participants[i];
    r.(participants := r.participants[i := p.(runtimeDevice := Some(device), runtimeInode := Some(inode))])
  }

  function Settled(ps: seq<Participant>, s: Settlement): (qs: seq<Participant>)
    ensures |qs| == |ps|
    ensures forall i :: 0 <= i < |ps| ==> qs[i] == ps[i].(settlement := s)
  {
    seq(|ps|, i requires 0 <= i < |ps| => ps[i].(settlement := s))
  }

  function ExactRemoval(r: Record): RemovalReceipt {
    RemovalReceipt(r.generation, r.targetVersion, r.participants)
  }

  function ExactInstall(r: Record): InstallReceipt
    requires r.predecessor.Some?
  {
    InstallReceipt(r.generation, r.predecessor.value, r.targetVersion, r.participants)
  }
}
