/** Leases, endings and the retry budget of dispatch records, over every continuation of the queue. */
module DispatchLeases {
  import opened Basics
  import opened DispatchQueue

  // ----- Enqueuing -----

  /**
   A message is enqueued once: again for the same target it is found, for another it is refused, and nothing changes.
   */
  lemma EnqueueIsIdempotent(t: Table, message: nat, target: Target, now: Time)
    requires Inv(t)
    ensures match Enqueue(t, message, target, now)
      case Inserted(t') =>
        && (forall i: nat :: i < |t| ==> t[i].message != message) && |t'| == |t| + 1 && t'[..|t|] == t
        && t'[|t|].message == message && t'[|t|].target == target && t'[|t|].createdAt == now && t'[|t|].status.Queued?
        && Enqueue(t', message, target, now) == Existing(|t|)
      case Existing(i) => i < |t| && t[i].message == message && t[i].target == target
      case TargetConflict(i) => i < |t| && t[i].message == message && t[i].target != target
  {
  }

  // ----- A lease protects its holder -----

  /** The holder of `token` itself acts on the record. */
  predicate ByHolder(act: Action, i: nat, token: Token) {
    (act.DoRenew? || act.DoComplete?) && act.id == i && act.token == token
  }

  predicate Leased(t: Table, i: nat, token: Token, until: Time) {
    i < |t| && t[i].status.Running? && t[i].token == Some(token) && t[i].lease == Some(until)
  }

  /** A claim at `now` and a renewal at `now` both last until `now + leaseSeconds`, to the second. */
  lemma ClaimAndRenewalAreLeased(t: Table, i: nat, token: Token, leaseSeconds: nat, retryLimit: nat, now: Time)
    ensures CanClaim(t, i, retryLimit) ==>
      Leased(Claim(t, i, token, leaseSeconds, retryLimit, now), i, token, now + leaseSeconds)
    ensures !CanClaim(t, i, retryLimit) ==> Claim(t, i, token, leaseSeconds, retryLimit, now) == t
    ensures Fenced(t, i, token, now) ==> Leased(Renew(t, i, token, leaseSeconds, now), i, token, now + leaseSeconds)
    ensures !Fenced(t, i, token, now) ==> Renew(t, i, token, leaseSeconds, now) == t
  {
  }

  /**
   Until the lease runs out nobody but its holder touches the record, whatever other workers, sweeps and operators do,
   and the holder can still end it; from then on the holder cannot, and the next sweep makes it uncertain.
   */
  lemma {:induction false} LeaseProtects(t: Table, acts: seq<Action>, retryLimit: nat, i: nat, token: Token,
                                         until: Time)
    requires Leased(t, i, token, until)
    requires forall k: nat :: k < |acts| ==>
      !ByHolder(acts[k], i, token) && (acts[k].DoFinalize? ==> acts[k].at < until)
    ensures var t' := Run(t, acts, retryLimit);
      && i < |t'| && t'[i] == t[i]
      && (forall at: Time :: Fenced(t', i, token, at) <==> at < until)
      && (forall at: Time :: at >= until ==>
            Finalize(t', retryLimit, at)[i]
              == t[i].(status := Uncertain, token := None, lease := None, lastError := Some(LEASE_EXPIRED)))
    decreases |acts|
  {
    if acts != [] {
      LeaseStep(t, acts[0], retryLimit, i, token, until);
      LeaseProtects(Step(t, acts[0], retryLimit), acts[1..], retryLimit, i, token, until);
    }
  }

  lemma LeaseStep(t: Table, act: Action, retryLimit: nat, i: nat, token: Token, until: Time)
    requires Leased(t, i, token, until) && !ByHolder(act, i, token) && (act.DoFinalize? ==> act.at < until)
    ensures i < |Step(t, act, retryLimit)| && Step(t, act, retryLimit)[i] == t[i]
  {
  }

  // ----- How a holder ends a record -----

  predicate Undecided(acts: seq<Action>, i: nat) {
    forall k: nat :: k < |acts| ==> !(acts[k].DoResolve? && acts[k].id == i)
  }

  /**
   A record ended as a success, as dead or as uncertain stays so: the first two for ever, the last until an operator
   decides. In the meantime nothing of its thread that comes after an uncertain record is started.
   */
  lemma EndingStays(t: Table, i: nat, token: Token, e: Ending, retryLimit: nat, now: Time, acts: seq<Action>)
    requires Fenced(t, i, token, now) && !e.Fail? && (e.BecomeUncertain? ==> Undecided(acts, i))
    ensures var t1 := Complete(t, i, token, e, retryLimit, now);
      var t' := Run(t1, acts, retryLimit);
      && i < |t'| && t'[i].token.None? && t'[i].attempts == t[i].attempts
      && (match e
          case Succeed => t'[i].status.Success? && t'[i].lastError.None?
          case Die(x) => t'[i].status.Dead? && t'[i].lastError == Some(x)
          case BecomeUncertain(x) =>
            && t'[i].status.Uncertain? && t'[i].lastError == Some(x)
            && (forall j: nat :: j < |t1| && Prior(t1, i, j) ==>
                  j < |t'| && (t1[j].status.Running? || t'[j].attempts == t1[j].attempts))
          case Fail(_) => true)
  {
    var t1 := Complete(t, i, token, e, retryLimit, now);
    if e.BecomeUncertain? {
      UncertainWaits(t1, acts, retryLimit, i);
    } else {
      FinishedStaysFinished(t1, acts, retryLimit);
    }
  }

  /**
   A definite failure is tried again exactly while attempts are left: the record is then claimable as soon as it is its
   turn, and otherwise it is dead for good.
   */
  lemma FailureIsRetriedIff(t: Table, i: nat, token: Token, error: string, retryLimit: nat, now: Time)
    requires Inv(t) && Fenced(t, i, token, now)
    ensures var t1 := Complete(t, i, token, Fail(error), retryLimit, now);
      && i < |t1| && t1[i].lastError == Some(error) && t1[i].token.None?
      && (t[i].attempts <= retryLimit ==> t1[i].status.Failed? && (CanClaim(t1, i, retryLimit) <==> ThreadHead(t, i)))
      && (t[i].attempts > retryLimit ==> t1[i].status.Dead? && !CanClaim(t1, i, retryLimit))
      && !Exhausted(t1[i], retryLimit)
  {
    var t1 := Complete(t, i, token, Fail(error), retryLimit, now);
    assert RowChecks(t[i]);
    forall k: nat | k < |t| && k != i ensures t1[k] == t[k] { }
    if ThreadHead(t1, i) { SameHead(t1, t, i); }
    if ThreadHead(t, i) { SameHead(t, t1, i); }
    assert ThreadIdle(t1, i);
  }

  /** Whether a record is the head of its thread depends on the others only. */
  lemma SameHead(t: Table, t': Table, i: nat)
    requires |t| == |t'| && i < |t| && ThreadHead(t, i) && t'[i].target == t[i].target
      && t'[i].createdAt == t[i].createdAt
    requires forall k: nat :: k < |t| && k != i ==> t'[k] == t[k]
    ensures ThreadHead(t', i)
  {
    forall k: nat | k < |t'| && Prior(t', k, i) ensures !Blocking(t'[k].status) { assert Prior(t, k, i); }
  }

  /** The budget can be used up: a record at its turn that keeps failing runs retry_limit + 1 times and is then dead. */
  lemma {:induction false} BudgetIsReached(t: Table, i: nat, token: Token, retryLimit: nat) returns (acts: seq<Action>)
    requires Inv(t) && CanClaim(t, i, retryLimit) && t[i].attempts <= retryLimit
    ensures i < |Run(t, acts, retryLimit)|
    ensures Run(t, acts, retryLimit)[i].attempts == retryLimit + 1 && Run(t, acts, retryLimit)[i].status.Dead?
    decreases retryLimit - t[i].attempts
  {
    var claim, fail := DoClaim(i, token, 60, 0), DoComplete(i, token, Fail("failed"), 1);
    var t1 := Step(t, claim, retryLimit);
    var t2 := Step(t1, fail, retryLimit);
    StepKeeps(t, claim, retryLimit);
    StepKeeps(t1, fail, retryLimit);
    FailureIsRetriedIff(t1, i, token, "failed", retryLimit, 1);
    SameHead(t, t1, i);
    var rest: seq<Action> := [];
    if t[i].attempts < retryLimit { rest := BudgetIsReached(t2, i, token, retryLimit); }
    acts := [claim] + ([fail] + rest);
    RunCons(t1, fail, rest, retryLimit);
    RunCons(t, claim, [fail] + rest, retryLimit);
  }

  // ----- Something can be claimed -----

  lemma PriorIsTransitive(t: Table, i: nat, j: nat, k: nat)
    requires i < |t| && j < |t| && k < |t| && Prior(t, i, j) && Prior(t, j, k)
    ensures Prior(t, i, k)
  {
  }

  function Earlier(t: Table, j: nat): set<nat>
    requires j < |t|
  {
    set i: nat | i < |t| && Prior(t, i, j)
  }

  /** The first record of a thread that is not finished. */
  lemma {:induction false} FirstUnfinished(t: Table, j: nat) returns (h: nat)
    requires j < |t| && Blocking(t[j].status)
    ensures h < |t| && t[h].target.thread == t[j].target.thread && Blocking(t[h].status) && ThreadHead(t, h)
    decreases Earlier(t, j)
  {
    if i: nat :| i < |t| && Prior(t, i, j) && Blocking(t[i].status) {
      forall k: nat | k in Earlier(t, i) ensures k in Earlier(t, j) { PriorIsTransitive(t, k, i, j); }
      assert i in Earlier(t, j) && i !in Earlier(t, i);
      h := FirstUnfinished(t, i);
    } else {
      h := j;
    }
  }

  /**
   No thread stalls by itself: after a sweep, a thread with unfinished records has one that can be claimed, unless one
   of them is running or uncertain.
   */
  lemma UnfinishedThreadMoves(t: Table, j: nat, retryLimit: nat)
    requires j < |t| && Blocking(t[j].status)
    requires forall i: nat :: i < |t| && t[i].target.thread == t[j].target.thread ==>
      !t[i].status.Running? && !t[i].status.Uncertain? && !Exhausted(t[i], retryLimit)
    ensures exists h: nat :: h < |t| && t[h].target.thread == t[j].target.thread && CanClaim(t, h, retryLimit)
    ensures NextClaimable(t, retryLimit, |t|).Some?
  {
    var h := FirstUnfinished(t, j);
    assert CanClaim(t, h, retryLimit);
  }
}
