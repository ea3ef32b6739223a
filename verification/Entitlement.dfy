/**
 * Licence evaluation and installation. Opening a licence file (its encoding, its signature under the trusted keys) is
 * a parameter; what the claims decide, and what installing does to the destination file when any step may fail, is
 * modelled.
 */
module Entitlement {
  import opened Faults
  import opened Wrappers

  const MAX_ENTITLEMENT_BYTES := 16 * 1024

  type Bytes = string
  type Instant = int

  datatype Claims = Claims(issuedAt: Instant, notBefore: Instant, expiresAt: Instant, hasFeature: bool)

  datatype Decision = Active | AuthorityUnavailable | Missing | Invalid | NotYetValid | Expired | FeatureMissing

  datatype InstallError = NoAuthority | SourceInvalid | NotActive | StorageUnavailable | ActivationBusy | InstallFailed

  /** The claims of a file that is well formed and signed by a trusted key. */
  type Opener = Bytes -> Option<Claims>

  function Evaluate(bytes: Bytes, open: Opener, now: Instant): Decision {
    if |bytes| == 0 || |bytes| > MAX_ENTITLEMENT_BYTES then Invalid
    else
      match open(bytes)
      case None => Invalid
      case Some(c) =>
        if c.issuedAt > c.notBefore || c.notBefore >= c.expiresAt then Invalid
        else if now < c.notBefore then NotYetValid
        else if now >= c.expiresAt then Expired
        else if !c.hasFeature then FeatureMissing
        else Active
  }

  /**
   * What a file's decision is, case by case: it is invalid unless it is neither empty nor over 16 KiB, signed by a
   * trusted key, and valid over a time that is not empty and does not begin before it was issued; then time decides,
   * and within that time the feature.
   */
  lemma DecisionByClaims(bytes: Bytes, open: Opener, now: Instant)
    ensures |bytes| == 0 || |bytes| > 16_384 || open(bytes).None? ==> Evaluate(bytes, open, now).Invalid?
    ensures 0 < |bytes| <= 16_384 && open(bytes).Some? ==>
              var c, d := open(bytes).value, Evaluate(bytes, open, now);
              && (d.Invalid? <==> !(c.issuedAt <= c.notBefore < c.expiresAt))
              && (d.NotYetValid? <==> c.issuedAt <= c.notBefore < c.expiresAt && now < c.notBefore)
              && (d.Expired? <==> c.issuedAt <= c.notBefore < c.expiresAt <= now)
              && (d.FeatureMissing? <==> c.issuedAt <= c.notBefore <= now < c.expiresAt && !c.hasFeature)
              && (d.Active? <==> c.issuedAt <= c.notBefore <= now < c.expiresAt && c.hasFeature)
  {
  }

  /** How far a licence is through its life. */
  function Stage(d: Decision): int {
    match d
    case NotYetValid => 0
    case Expired => 2
    case _ => 1
  }

  /** A licence's decision only ever moves forward, and within a stage it does not change. */
  lemma DecisionMovesForward(bytes: Bytes, open: Opener, earlier: Instant, later: Instant)
    requires earlier <= later
    ensures Stage(Evaluate(bytes, open, earlier)) <= Stage(Evaluate(bytes, open, later))
    ensures Stage(Evaluate(bytes, open, earlier)) == Stage(Evaluate(bytes, open, later)) ==>
              Evaluate(bytes, open, earlier) == Evaluate(bytes, open, later)
  {
    if 0 < |bytes| <= MAX_ENTITLEMENT_BYTES && open(bytes).Some? {
      var c := open(bytes).value;
    }
  }

  function RequireActive(bytes: Bytes, open: Opener, now: Instant): Outcome<InstallError> {
    match Evaluate(bytes, open, now)
    case Active => Pass
    case NotYetValid => Fail(NotActive)
    case Expired => Fail(NotActive)
    case FeatureMissing => Fail(NotActive)
    case Invalid => Fail(SourceInvalid)
    case Missing => Fail(SourceInvalid)
    case AuthorityUnavailable => Fail(NoAuthority)
  }

  datatype Promotion = Installed | NotPromoted | Promoted

  class EntitlementGate {
    var destination: Option<Bytes>
    ghost var contents: seq<Option<Bytes>>   // everything the destination has held, in order
    const faulty: bool

    constructor (destination: Option<Bytes>, faulty: bool)
      ensures Valid() && this.destination == destination && contents == [destination] && this.faulty == faulty
    {
      this.destination, this.faulty := destination, faulty;
      contents := [destination];
    }

    ghost predicate Valid()
      reads this
    {
      |contents| > 0 && contents[|contents| - 1] == destination
    }

    /** Since the call began the destination has held nothing but these two. */
    twostate predicate HeldOnly(a: Option<Bytes>, b: Option<Bytes>)
      reads this
    {
      && old(contents) <= contents
      && forall i :: |old(contents)| <= i < |contents| ==> contents[i] == a || contents[i] == b
    }

    /** The licence now in place, as a reader finds it; a reader that fails finds none. */
    method Status(open: Opener, now: Instant) returns (decision: Decision)
      ensures decision.Active? ==> destination.Some? && Evaluate(destination.value, open, now).Active?
      ensures !faulty && destination.Some? && Evaluate(destination.value, open, now).Active? ==> decision.Active?
    {
      var fault := Fault(faulty);
      if fault || destination.None? || |destination.value| == 0 || |destination.value| > MAX_ENTITLEMENT_BYTES {
        return Missing;
      }
      decision := Evaluate(destination.value, open, now);
    }

    /** Writes a temporary file and renames it over the destination; only the rename changes the destination. */
    method InstallCandidate(candidate: Bytes) returns (p: Promotion)
      requires Valid()
      modifies this
      ensures Valid() && HeldOnly(old(destination), Some(candidate))
      ensures p.NotPromoted? ==> destination == old(destination)
      ensures !p.NotPromoted? ==> destination == Some(candidate)
      ensures !faulty ==> p.Installed?
    {
      var prepared := Fault(faulty);
      if prepared {
        return NotPromoted;
      }
      destination := Some(candidate);
      contents := contents + [destination];
      var unsynced := Fault(faulty);
      p := if unsynced then Promoted else Installed;
    }

    method ReadExisting() returns (found: Result<Option<Bytes>, InstallError>)
      ensures found.Ok? ==> found.value == destination
      ensures found.Err? ==> found.error.StorageUnavailable?
      ensures !faulty ==> found.Ok?
    {
      var fault := Fault(faulty);
      found := if fault then Err(StorageUnavailable) else Ok(destination);
    }

    /** Puts the prior contents, or their absence, back; it passes only if it has seen them there. */
    method RestorePrevious(previous: Option<Bytes>) returns (o: Outcome<InstallError>)
      requires Valid()
      modifies this
      ensures Valid() && HeldOnly(old(destination), previous)
      ensures destination == previous || (o.Fail? && destination == old(destination))
      ensures o.Pass? ==> destination == previous
      ensures o.Fail? ==> o.error.InstallFailed?
      ensures !faulty ==> o.Pass?
    {
      if previous.Some? {
        var p := InstallCandidate(previous.value);
        if !p.Installed? {
          return Fail(InstallFailed);
        }
        var restored := ReadExisting();
        return if restored == Ok(previous) then Pass else Fail(InstallFailed);
      }
      var before := Fault(faulty);
      if before {
        return Fail(InstallFailed);
      }
      destination := None;
      contents := contents + [destination];
      var after := Fault(faulty);
      o := if after then Fail(InstallFailed) else Pass;
    }

    /**
     * Installs a licence that is active, and keeps it only if it then reads back as active. At every moment the
     * destination holds its prior contents or the candidate. `restored` reports how putting the prior contents back
     * went: after an error they are back unless that itself failed.
     */
    method Install(hasKeys: bool, source: Result<Bytes, InstallError>, open: Opener,
                   first: Instant, second: Instant, third: Instant)
      returns (installed: Outcome<InstallError>, restored: Outcome<InstallError>)
      requires Valid()
      modifies this
      ensures Valid()
      ensures source.Err? ==> installed.Fail? && destination == old(destination) && contents == old(contents)
      ensures source.Ok? ==> HeldOnly(old(destination), Some(source.value))
      ensures source.Ok? ==> destination == old(destination) || destination == Some(source.value)
      ensures installed.Pass? ==>
                && source.Ok? && destination == Some(source.value)
                && Evaluate(source.value, open, third).Active?
      ensures installed.Fail? && restored.Pass? ==> destination == old(destination)
      ensures !faulty ==> restored.Pass?
      ensures !faulty ==>
                (installed.Pass? <==>
                 && hasKeys && source.Ok? && Evaluate(source.value, open, first).Active?
                 && Evaluate(source.value, open, second).Active? && Evaluate(source.value, open, third).Active?)
      ensures !faulty ==>
                (installed.Pass? <==>
                 && hasKeys && source.Ok? && 0 < |source.value| <= 16_384 && open(source.value).Some?
                 && var c := open(source.value).value;
                    && c.issuedAt <= c.notBefore < c.expiresAt && c.hasFeature
                    && c.notBefore <= first < c.expiresAt && c.notBefore <= second < c.expiresAt
                    && c.notBefore <= third < c.expiresAt)
      ensures !hasKeys ==> installed == Fail(NoAuthority)
      ensures hasKeys && source.Err? ==> installed == Fail(source.error)
      ensures hasKeys && source.Ok? && (|source.value| == 0 || |source.value| > 16_384 || open(source.value).None?) ==>
                installed == Fail(SourceInvalid)
      ensures hasKeys && source.Ok? && 0 < |source.value| <= 16_384 && open(source.value).Some? ==>
                var c := open(source.value).value;
                && (!(c.issuedAt <= c.notBefore < c.expiresAt) ==> installed == Fail(SourceInvalid))
                && (c.issuedAt <= c.notBefore < c.expiresAt
                    && !(c.notBefore <= first < c.expiresAt && c.hasFeature) ==>
                      installed == Fail(NotActive))
      ensures installed.Fail? && restored.Fail? ==> restored == Fail(InstallFailed)
    {
      restored := Pass;
      if !hasKeys {
        return Fail(NoAuthority), Pass;
      }
      if source.Err? {
        return Fail(source.error), Pass;
      }
      var candidate := source.value;
      installed := RequireActive(candidate, open, first);
      if installed.Fail? {
        return;
      }
      var busy := Fault(faulty);
      if busy {
        return Fail(ActivationBusy), Pass;
      }
      var previous := ReadExisting();
      if previous.Err? {
        return Fail(previous.error), Pass;
      }
      installed := RequireActive(candidate, open, second);
      if installed.Fail? {
        return;
      }
      var promotion := InstallCandidate(candidate);
      if !promotion.Installed? {
        if promotion.Promoted? {
          restored := RestorePrevious(previous.value);
        }
        return Fail(InstallFailed), restored;
      }
      var status := Status(open, third);
      if !status.Active? {
        restored := RestorePrevious(previous.value);
        return Fail(InstallFailed), restored;
      }
    }
  }
}
