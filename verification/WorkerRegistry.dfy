/**
 * The registry of active runs that claims, workers and recovery reservations share. Each method is one step under the
 * registry's mutex (or touches only its caller's own claim), so any order of calls is an interleaving of threads.
 */
module WorkerRegistry {
  import opened Wrappers

  type RunId = string
  type Token = nat
  type Id = nat

  /** A claim is pending until its worker is started; it is disarmed right after that and then dropped. */
  datatype Stage = Pending | Spawned | Disarmed

  datatype Claim = Claim(run: RunId, token: Token, stage: Stage)

  datatype Worker = Worker(run: RunId, token: Token)

  /** The order of run ids: lexicographic. */
  predicate Precedes(a: RunId, b: RunId) {
    |b| > 0 && (|a| == 0 || a[0] < b[0] || (a[0] == b[0] && Precedes(a[1..], b[1..])))
  }

  /** The two agree up to `k`, where the first ends or has the smaller character. */
  predicate BeforeAt(a: RunId, b: RunId, k: nat) {
    k <= |a| && k < |b| && (forall j :: 0 <= j < k ==> a[j] == b[j]) && (k == |a| || a[k] < b[k])
  }

  lemma {:induction false} PrecedesWhereTheyDiffer(a: RunId, b: RunId)
    ensures Precedes(a, b) <==> exists k: nat :: BeforeAt(a, b, k)
  {
    if |b| > 0 && (|a| == 0 || a[0] < b[0]) {
      assert BeforeAt(a, b, 0);
    } else if |a| > 0 && |b| > 0 && a[0] == b[0] {
      PrecedesWhereTheyDiffer(a[1..], b[1..]);
      if k: nat :| BeforeAt(a[1..], b[1..], k) {
        assert forall j :: 0 < j < k + 1 ==> a[j] == a[1..][j - 1] && b[j] == b[1..][j - 1];
        assert BeforeAt(a, b, k + 1);
      }
      if k: nat :| BeforeAt(a, b, k) {
        assert BeforeAt(a[1..], b[1..], k - 1);
      }
    }
  }

  lemma {:induction false} PrecedesIsTotal(a: RunId, b: RunId)
    ensures a == b || Precedes(a, b) || Precedes(b, a)
    ensures !(Precedes(a, b) && Precedes(b, a)) && !Precedes(a, a)
  {
    if |a| > 0 && |b| > 0 && a[0] == b[0] {
      PrecedesIsTotal(a[1..], b[1..]);
      assert a == [a[0]] + a[1..] && b == [b[0]] + b[1..];
    }
    if |a| > 0 {
      PrecedesIsTotal(a[1..], a[1..]);
    }
  }

  lemma {:induction false} PrecedesIsTransitive(a: RunId, b: RunId, c: RunId)
    requires Precedes(a, b) && Precedes(b, c)
    ensures Precedes(a, c)
  {
    if |a| > 0 && a[0] == b[0] == c[0] {
      PrecedesIsTransitive(a[1..], b[1..], c[1..]);
    }
  }

  /** In order, each once. */
  predicate Sorted(runs: seq<RunId>) {
    forall i, j :: 0 <= i < j < |runs| ==> Precedes(runs[i], runs[j])
  }

  lemma SortedFront(run: RunId, runs: seq<RunId>)
    requires Sorted(runs) && (runs != [] ==> Precedes(run, runs[0]))
    ensures Sorted([run] + runs)
  {
    forall j | 0 < j < |runs|
      ensures Precedes(run, runs[j])
    {
      PrecedesIsTransitive(run, runs[0], runs[j]);
    }
  }

  function Inserted(runs: seq<RunId>, run: RunId): (inserted: seq<RunId>)
    requires Sorted(runs)
    ensures Sorted(inserted)
    ensures forall r :: r in inserted <==> r in runs || r == run
  {
    if |runs| == 0 then [run]
    else if runs[0] == run then runs
    else if Precedes(run, runs[0]) then SortedFront(run, runs); [run] + runs
    else
      PrecedesIsTotal(run, runs[0]);
      assert runs == [runs[0]] + runs[1..];
      var rest := Inserted(runs[1..], run);
      assert forall r :: r in rest ==> Precedes(runs[0], r);
      SortedFront(runs[0], rest);
      [runs[0]] + rest
  }

  /** Sorts the run ids and drops the repeated ones. */
  method SortRuns(runs: seq<RunId>) returns (sorted: seq<RunId>)
    ensures Sorted(sorted)
    ensures forall r :: r in sorted <==> r in runs
  {
    sorted := [];
    for k := 0 to |runs|
      invariant Sorted(sorted)
      invariant forall r :: r in sorted <==> r in runs[..k]
    {
      sorted := Inserted(sorted, runs[k]);
    }
  }

  /** No two keys have the same token. */
  predicate Distinct(controls: map<RunId, Token>) {
    forall run, other :: run in controls && other in controls && controls[run] == controls[other] ==> run == other
  }

  /** Who will remove a key. */
  datatype Party = ByClaim(id: Id) | ByWorker(id: Id) | ByReservation(id: Id)

  datatype RegistryError = AlreadyRunning(run: RunId) | WorkerStart

  /** Everything in the registry and about it at one moment. */
  datatype Table = Table(active: map<RunId, Token>, claims: map<Id, Claim>, workers: map<Id, Worker>,
                         reservations: map<Id, map<RunId, Token>>, next: nat, owner: map<RunId, Party>)

  /** The party will remove this key and expects this token to be there. */
  predicate Removes(t: Table, p: Party, run: RunId, token: Token) {
    match p
    case ByClaim(c) => c in t.claims && t.claims[c] == Claim(run, token, Pending)
    case ByWorker(w) => w in t.workers && t.workers[w] == Worker(run, token)
    case ByReservation(r) => r in t.reservations && run in t.reservations[r] && t.reservations[r][run] == token
  }

  ghost predicate WillRemove(t: Table, p: Party, run: RunId) {
    exists token :: Removes(t, p, run, token)
  }

  predicate Owns(t: Table, p: Party, run: RunId, token: Token) {
    run in t.active && t.active[run] == token && run in t.owner && t.owner[run] == p
  }

  /** The keys are shared out: whoever will remove a key owns it alone, and every key has an owner who will. */
  ghost predicate Shared(t: Table) {
    && t.owner.Keys == t.active.Keys
    && (forall p, run, token :: Removes(t, p, run, token) ==> Owns(t, p, run, token))
    && (forall run :: run in t.active ==> Removes(t, t.owner[run], run, t.active[run]))
  }

  ghost predicate Numbered(t: Table) {
    && (forall c :: c in t.claims ==> c < t.next)
    && (forall w :: w in t.workers ==> w < t.next)
    && (forall r :: r in t.reservations ==> r < t.next)
    && (forall run :: run in t.active ==> t.active[run] < t.next)
  }

  ghost predicate Consistent(t: Table) {
    Shared(t) && Numbered(t)
  }

  // ---- the steps, on tables ----

  function Claimed(t: Table, run: RunId): Table {
    t.(active := t.active[run := t.next], claims := t.claims[t.next := Claim(run, t.next, Pending)], next := t.next + 1,
       owner := t.owner[run := ByClaim(t.next)])
  }

  function Started(t: Table, c: Id): Table
    requires c in t.claims
  {
    t.(claims := t.claims[c := t.claims[c].(stage := Spawned)],
       workers := t.workers[t.next := Worker(t.claims[c].run, t.claims[c].token)], next := t.next + 1,
       owner := t.owner[t.claims[c].run := ByWorker(t.next)])
  }

  function Unclaimed(t: Table, c: Id): Table
    requires c in t.claims
  {
    if t.claims[c].stage.Pending? then
      t.(active := t.active - {t.claims[c].run}, claims := t.claims - {c}, owner := t.owner - {t.claims[c].run})
    else t.(claims := t.claims - {c})
  }

  function Ended(t: Table, w: Id): Table
    requires w in t.workers
  {
    t.(active := t.active - {t.workers[w].run}, workers := t.workers - {w}, owner := t.owner - {t.workers[w].run})
  }

  function OwnersOf(controls: map<RunId, Token>, id: Id): (owners: map<RunId, Party>)
    ensures owners.Keys == controls.Keys
  {
    map run | run in controls :: ByReservation(id)
  }

  function Reserved(t: Table, controls: map<RunId, Token>, next: nat): Table {
    t.(active := t.active + controls, reservations := t.reservations[t.next := controls], next := next,
       owner := t.owner + OwnersOf(controls, t.next))
  }

  function Released(t: Table, r: Id): Table
    requires r in t.reservations
  {
    t.(active := t.active - t.reservations[r].Keys, reservations := t.reservations - {r},
       owner := t.owner - t.reservations[r].Keys)
  }

  lemma ClaimedConsistent(t: Table, run: RunId)
    requires Consistent(t) && run !in t.active
    ensures Consistent(Claimed(t, run))
  {
    var t' := Claimed(t, run);
    forall p, r, token | Removes(t', p, r, token)
      ensures Owns(t', p, r, token)
    {
      assert p != ByClaim(t.next) ==> Removes(t, p, r, token);
    }
    forall r | r in t'.active
      ensures Removes(t', t'.owner[r], r, t'.active[r])
    {
      assert r != run ==> Removes(t, t.owner[r], r, t.active[r]);
    }
  }

  lemma StartedConsistent(t: Table, c: Id)
    requires Consistent(t) && c in t.claims && t.claims[c].stage.Pending?
    ensures Consistent(Started(t, c))
  {
    var t' := Started(t, c);
    var run := t.claims[c].run;
    assert Removes(t, ByClaim(c), run, t.claims[c].token);
    forall p, r, token | Removes(t', p, r, token)
      ensures Owns(t', p, r, token)
    {
      assert p != ByWorker(t.next) ==> Removes(t, p, r, token) && p != ByClaim(c);
    }
    forall r | r in t'.active
      ensures Removes(t', t'.owner[r], r, t'.active[r])
    {
      assert Removes(t, t.owner[r], r, t.active[r]);
    }
  }

  /** A party that owns exactly these keys takes them with it; nobody else loses anything. */
  lemma RemovalConsistent(t: Table, t': Table, p: Party, runs: set<RunId>)
    requires Consistent(t) && t' == t.(active := t.active - runs, owner := t.owner - runs, claims := t'.claims,
                                       workers := t'.workers, reservations := t'.reservations)
    requires forall run :: run in runs ==> run in t.active && t.owner[run] == p
    requires forall q, run, token :: Removes(t', q, run, token) <==> q != p && Removes(t, q, run, token)
    requires forall run :: run in t.active && t.owner[run] == p ==> run in runs
    requires t'.claims.Keys <= t.claims.Keys && t'.workers.Keys <= t.workers.Keys
    requires t'.reservations.Keys <= t.reservations.Keys
    ensures Consistent(t')
  {
  }

  lemma UnclaimedConsistent(t: Table, c: Id)
    requires Consistent(t) && c in t.claims && !t.claims[c].stage.Spawned?
    ensures Consistent(Unclaimed(t, c))
    ensures t.claims[c].stage.Pending? ==> t.claims[c].run in t.active && t.active[t.claims[c].run] == t.claims[c].token
  {
    var t' := Unclaimed(t, c);
    if t.claims[c].stage.Pending? {
      assert Removes(t, ByClaim(c), t.claims[c].run, t.claims[c].token);
      forall q, run, token
        ensures Removes(t', q, run, token) <==> q != ByClaim(c) && Removes(t, q, run, token)
      {
      }
      RemovalConsistent(t, t', ByClaim(c), {t.claims[c].run});
    } else {
      assert forall q, run, token :: Removes(t', q, run, token) <==> Removes(t, q, run, token);
    }
  }

  lemma EndedConsistent(t: Table, w: Id)
    requires Consistent(t) && w in t.workers
    ensures Consistent(Ended(t, w))
    ensures t.workers[w].run in t.active && t.active[t.workers[w].run] == t.workers[w].token
  {
    assert Removes(t, ByWorker(w), t.workers[w].run, t.workers[w].token);
    RemovalConsistent(t, Ended(t, w), ByWorker(w), {t.workers[w].run});
  }

  lemma ReservedRemoves(t: Table, controls: map<RunId, Token>, next: nat, p: Party, run: RunId, token: Token)
    requires Consistent(t)
    ensures Removes(Reserved(t, controls, next), p, run, token) <==>
              if p == ByReservation(t.next) then run in controls && controls[run] == token
              else Removes(t, p, run, token)
  {
  }

  lemma ReservedOwner(t: Table, controls: map<RunId, Token>, next: nat, run: RunId)
    requires run in controls || run in t.owner
    ensures run in Reserved(t, controls, next).owner
    ensures Reserved(t, controls, next).owner[run] == if run in controls then ByReservation(t.next) else t.owner[run]
  {
  }

  lemma ReservedOwns(t: Table, controls: map<RunId, Token>, next: nat, p: Party, run: RunId, token: Token)
    requires Consistent(t) && controls.Keys !! t.active.Keys && Removes(Reserved(t, controls, next), p, run, token)
    ensures Owns(Reserved(t, controls, next), p, run, token)
  {
    ReservedRemoves(t, controls, next, p, run, token);
    if p != ByReservation(t.next) {
      assert Owns(t, p, run, token);
    }
    ReservedOwner(t, controls, next, run);
  }

  lemma ReservedHasRemover(t: Table, controls: map<RunId, Token>, next: nat, run: RunId)
    requires Consistent(t) && controls.Keys !! t.active.Keys && (run in controls || run in t.active)
    ensures var t' := Reserved(t, controls, next);
            run in t'.owner && run in t'.active && Removes(t', t'.owner[run], run, t'.active[run])
  {
    var t' := Reserved(t, controls, next);
    ReservedOwner(t, controls, next, run);
    if run in controls {
      ReservedRemoves(t, controls, next, ByReservation(t.next), run, controls[run]);
    } else {
      assert Removes(t, t.owner[run], run, t.active[run]);
      ReservedRemoves(t, controls, next, t.owner[run], run, t.active[run]);
    }
  }

  lemma ReservedNumbered(t: Table, controls: map<RunId, Token>, next: nat)
    requires Consistent(t) && t.next < next && forall run :: run in controls ==> controls[run] < next
    ensures Reserved(t, controls, next).owner.Keys == Reserved(t, controls, next).active.Keys
    ensures Numbered(Reserved(t, controls, next))
  {
  }

  lemma ReservedConsistent(t: Table, controls: map<RunId, Token>, next: nat)
    requires Consistent(t) && controls.Keys !! t.active.Keys && t.next < next
    requires forall run :: run in controls ==> controls[run] < next
    ensures Consistent(Reserved(t, controls, next))
  {
    var t' := Reserved(t, controls, next);
    forall p, run, token | Removes(t', p, run, token)
      ensures Owns(t', p, run, token)
    {
      ReservedOwns(t, controls, next, p, run, token);
    }
    forall run | run in t'.active
      ensures run in t'.owner && Removes(t', t'.owner[run], run, t'.active[run])
    {
      ReservedHasRemover(t, controls, next, run);
    }
    ReservedNumbered(t, controls, next);
  }

  lemma ReleasedConsistent(t: Table, r: Id)
    requires Consistent(t) && r in t.reservations
    ensures Consistent(Released(t, r))
    ensures forall run :: run in t.reservations[r] ==> run in t.active && t.active[run] == t.reservations[r][run]
  {
    forall run | run in t.reservations[r]
      ensures Owns(t, ByReservation(r), run, t.reservations[r][run])
    {
      assert Removes(t, ByReservation(r), run, t.reservations[r][run]);
    }
    RemovalConsistent(t, Released(t, r), ByReservation(r), t.reservations[r].Keys);
  }

  /** Every key has exactly one party that will still remove it, and no party waits to remove anything else. */
  lemma OneRemover(t: Table, run: RunId)
    requires Consistent(t)
    ensures run in t.active <==> exists p :: WillRemove(t, p, run)
    ensures forall p, q :: WillRemove(t, p, run) && WillRemove(t, q, run) ==> p == q
  {
    if run in t.active {
      assert Removes(t, t.owner[run], run, t.active[run]);
      assert WillRemove(t, t.owner[run], run);
    }
    forall p | WillRemove(t, p, run)
      ensures run in t.active && t.owner[run] == p
    {
      var token :| Removes(t, p, run, token);
      assert Owns(t, p, run, token);
    }
  }

  /** No run has two workers. */
  lemma NoTwoWorkers(t: Table, v: Id, w: Id)
    requires Consistent(t) && v in t.workers && w in t.workers && t.workers[v].run == t.workers[w].run
    ensures v == w
  {
    assert Removes(t, ByWorker(v), t.workers[v].run, t.workers[v].token);
    assert Removes(t, ByWorker(w), t.workers[w].run, t.workers[w].token);
  }

  /**
   * A worker may end, and its run be claimed again, before the claim it was started from is disarmed. From then on the
   * run's token is not that claim's any more; dropped once disarmed, the claim leaves the key to its new owner.
   */
  lemma ReclaimedBeforeDisarm(t: Table, c: Id, w: Id)
    requires Consistent(t) && c in t.claims && t.claims[c].stage.Spawned?
    requires w in t.workers && t.workers[w] == Worker(t.claims[c].run, t.claims[c].token)
    ensures var run := t.claims[c].run;
            var later := Claimed(Ended(t, w), run);
            var disarmed := later.(claims := later.claims[c := t.claims[c].(stage := Disarmed)]);
            && Consistent(later) && later.claims[c] == t.claims[c]
            && run in later.active && later.active[run] != t.claims[c].token
            && later.owner[run] == ByClaim(t.next)
            && Unclaimed(disarmed, c).active == later.active
  {
    EndedConsistent(t, w);
    ClaimedConsistent(Ended(t, w), t.claims[c].run);
  }

  class Registry {
    var active: map<RunId, Token>
    var claims: map<Id, Claim>
    var workers: map<Id, Worker>
    var reservations: map<Id, map<RunId, Token>>
    var next: nat
    ghost var owner: map<RunId, Party>

    ghost function Now(): Table
      reads this
    {
      Table(active, claims, workers, reservations, next, owner)
    }

    ghost predicate Valid()
      reads this
    {
      Consistent(Now())
    }

    constructor ()
      ensures Valid() && Now() == Table(map[], map[], map[], map[], 0, map[])
    {
      active, claims, workers, reservations, next, owner := map[], map[], map[], map[], 0, map[];
    }

    /** Enters the run, with a token of its own, unless it is there already. */
    method ClaimRun(run: RunId) returns (claim: Result<Id, RegistryError>)
      requires Valid()
      modifies this
      ensures Valid()
      ensures claim.Ok? <==> run !in old(active)
      ensures claim.Ok? ==> claim.value == old(next) && Now() == Claimed(old(Now()), run)
      ensures claim.Err? ==> claim.error == AlreadyRunning(run) && Now() == old(Now())
    {
      if run in active {
        return Err(AlreadyRunning(run));
      }
      ClaimedConsistent(Now(), run);
      var id := next;
      active := active[run := id];
      claims := claims[id := Claim(run, id, Pending)];
      next := next + 1;
      owner := owner[run := ByClaim(id)];
      claim := Ok(id);
    }

    /** Starts the claim's worker, which takes over the key; if no thread can be started, the claim keeps it. */
    method SpawnClaimed(claim: Id, threads: bool) returns (o: Outcome<RegistryError>)
      requires Valid() && claim in claims && claims[claim].stage.Pending?
      modifies this
      ensures Valid()
      ensures o == if threads then Pass else Fail(WorkerStart)
      ensures Now() == if threads then Started(old(Now()), claim) else old(Now())
    {
      if !threads {
        return Fail(WorkerStart);
      }
      StartedConsistent(Now(), claim);
      var c := claims[claim];
      claims := claims[claim := c.(stage := Spawned)];
      workers := workers[next := Worker(c.run, c.token)];
      owner := owner[c.run := ByWorker(next)];
      next := next + 1;
      o := Pass;
    }

    /** From now on the key is nothing to the claim: its worker may have ended and the run been claimed again. */
    method Disarm(claim: Id)
      requires Valid() && claim in claims && claims[claim].stage.Spawned?
      modifies this`claims
      ensures Valid() && claims == old(claims)[claim := old(claims)[claim].(stage := Disarmed)]
    {
      ghost var was := Now();
      claims := claims[claim := claims[claim].(stage := Disarmed)];
      assert forall q, run, token :: Removes(Now(), q, run, token) <==> Removes(was, q, run, token);
    }

    /** Drops a claim; one that is still pending removes its key, which still holds its token. */
    method DropClaim(claim: Id)
      requires Valid() && claim in claims && !claims[claim].stage.Spawned?
      modifies this
      ensures Valid() && Now() == Unclaimed(old(Now()), claim)
      ensures old(claims)[claim].stage.Pending? ==>
                old(claims)[claim].run in old(active) && old(active)[old(claims)[claim].run] == old(claims)[claim].token
    {
      UnclaimedConsistent(Now(), claim);
      var c := claims[claim];
      if c.stage.Pending? {
        active := active - {c.run};
        owner := owner - {c.run};
      }
      claims := claims - {claim};
    }

    /** A worker ends and removes the key of its run, which still holds the token it was started with. */
    method FinishWorker(worker: Id)
      requires Valid() && worker in workers
      modifies this
      ensures Valid() && Now() == Ended(old(Now()), worker)
      ensures old(workers)[worker].run in old(active)
      ensures old(active)[old(workers)[worker].run] == old(workers)[worker].token
    {
      EndedConsistent(Now(), worker);
      var w := workers[worker];
      active := active - {w.run};
      owner := owner - {w.run};
      workers := workers - {worker};
    }

    /** Reserves every run or none: one active run among them and nothing is entered, and the first one is named. */
    method Reserve(runs: seq<RunId>) returns (reservation: Result<Id, RegistryError>)
      requires Valid()
      modifies this
      ensures Valid()
      ensures reservation.Ok? <==> forall run :: run in runs ==> run !in old(active)
      ensures reservation.Err? ==>
                && Now() == old(Now()) && reservation.error.AlreadyRunning?
                && reservation.error.run in runs && reservation.error.run in old(active)
                && forall run :: run in runs && run in old(active) && run != reservation.error.run ==>
                                   Precedes(reservation.error.run, run)
      ensures reservation.Ok? ==>
                && reservation.value == old(next) && reservation.value in reservations
                && reservations[reservation.value].Keys == (set run | run in runs)
                && Now() == Reserved(old(Now()), reservations[reservation.value], next)
    {
      var sorted := SortRuns(runs);
      for k := 0 to |sorted|
        invariant forall j :: 0 <= j < k ==> sorted[j] !in active
      {
        if sorted[k] in active {
          return Err(AlreadyRunning(sorted[k]));
        }
      }
      var controls, token := EnterAll(sorted);
      ReservedConsistent(Now(), controls, token + 1);
      var id := next;
      active := active + controls;
      reservations := reservations[id := controls];
      next := token + 1;
      owner := owner + OwnersOf(controls, id);
      reservation := Ok(id);
    }

    /** A token for every run, each once. */
    method EnterAll(runs: seq<RunId>) returns (controls: map<RunId, Token>, token: nat)
      ensures controls.Keys == (set run | run in runs) && token >= next
      ensures forall run :: run in controls ==> next <= controls[run] < token
      ensures Distinct(controls)
    {
      controls, token := map[], next;
      for k := 0 to |runs|
        invariant controls.Keys == (set run | run in runs[..k]) && token >= next
        invariant forall run :: run in controls ==> next <= controls[run] < token
        invariant Distinct(controls)
      {
        if runs[k] !in controls {
          controls := controls[runs[k] := token];
          token := token + 1;
        }
        assert runs[..k + 1] == runs[..k] + [runs[k]];
      }
      assert runs[..|runs|] == runs;
    }

    /** The recovery task ends, and its reservation removes every key it entered and no other. */
    method ReleaseReservation(reservation: Id)
      requires Valid() && reservation in reservations
      modifies this
      ensures Valid() && Now() == Released(old(Now()), reservation)
      ensures forall run :: run in old(reservations)[reservation] ==>
                run in old(active) && old(active)[run] == old(reservations)[reservation][run]
    {
      ReleasedConsistent(Now(), reservation);
      var keys := reservations[reservation].Keys;
      active := active - keys;
      owner := owner - keys;
      reservations := reservations - {reservation};
    }

    /** The token through which a cancellation request reaches the worker of the run. */
    method TokenOf(run: RunId) returns (token: Option<Token>)
      requires Valid()
      ensures token.Some? <==> run in active
      ensures forall w :: w in workers && workers[w].run == run ==> token == Some(workers[w].token)
    {
      assert forall w :: w in workers ==> Removes(Now(), ByWorker(w), workers[w].run, workers[w].token);
      token := if run in active then Some(active[run]) else None;
    }

    /** One step of any other thread: it never touches the claim `mine`. */
    method OtherStep(mine: Id)
      requires Valid() && mine in claims
      modifies this
      ensures Valid() && mine in claims && claims[mine] == old(claims)[mine]
    {
      var run: RunId, runs: seq<RunId>, id: Id, threads: bool := *, *, *, *;
      if {
        case true =>
          var _ := ClaimRun(run);
        case id in claims && id != mine && claims[id].stage.Pending? =>
          var _ := SpawnClaimed(id, threads);
        case id in claims && id != mine && claims[id].stage.Spawned? =>
          Disarm(id);
        case id in claims && id != mine && !claims[id].stage.Spawned? =>
          DropClaim(id);
        case id in workers =>
          FinishWorker(id);
        case true =>
          var _ := Reserve(runs);
        case id in reservations =>
          ReleaseReservation(id);
      }
    }

    method Others(mine: Id)
      requires Valid() && mine in claims
      modifies this
      ensures Valid() && mine in claims && claims[mine] == old(claims)[mine]
    {
      var steps: int := *;
      while steps > 0
        invariant Valid() && mine in claims && claims[mine] == old(claims)[mine]
      {
        OtherStep(mine);
        steps := steps - 1;
      }
    }

    /**
     * Starts a worker for a run, with other threads at work between any two steps: the worker may end, and the run be
     * claimed again, before this claim is disarmed. The claim removes the key exactly if the worker was not started.
     */
    method Spawn(run: RunId, threads: bool) returns (o: Outcome<RegistryError>)
      requires Valid()
      modifies this
      ensures Valid()
      ensures run in old(active) <==> o == Fail(AlreadyRunning(run))
      ensures run in old(active) ==> Now() == old(Now())
      ensures run !in old(active) ==> (o.Pass? <==> threads)
      ensures o == Fail(WorkerStart) ==> run !in active
    {
      var claim := ClaimRun(run);
      if claim.Err? {
        return Fail(claim.error);
      }
      Others(claim.value);
      o := SpawnClaimed(claim.value, threads);
      Others(claim.value);
      if o.Fail? {
        DropClaim(claim.value);
        return;
      }
      Disarm(claim.value);
      Others(claim.value);
      label Dropped:
      DropClaim(claim.value);
      assert active == old@Dropped(active);
    }
  }
}
