/**
 Durable Hermes dispatch records: leased claims with per-thread first-in-first-out order. A record is identified by its
 position, which grows by one per insert. Each function is one transaction on the table.
 */
module DispatchQueue {
  import opened Basics

  datatype Status = Queued | Running | Success | Failed | Uncertain | Dead

  datatype Target = Target(identity: string, workspace: string, thread: string)

  datatype Dispatch = Dispatch(
    message: nat, target: Target, status: Status, attempts: nat, manualRetry: bool,
    token: Option<Token>, lease: Option<Time>, createdAt: Time, lastError: Option<string>)

  type Table = seq<Dispatch>

  const LEASE_EXPIRED := "dispatch_lease_expired_uncertain"

  predicate Blocking(s: Status) {
    s.Queued? || s.Running? || s.Failed? || s.Uncertain?
  }

  /** Thread order: created_at, then the identifier. */
  predicate Prior(t: Table, i: nat, j: nat)
    requires i < |t| && j < |t|
  {
    t[i].target.thread == t[j].target.thread
    && (t[i].createdAt < t[j].createdAt || (t[i].createdAt == t[j].createdAt && i < j))
  }

  predicate Claimable(r: Dispatch, retryLimit: nat) {
    r.status.Queued? || (r.status.Failed? && (r.attempts < retryLimit + 1 || r.manualRetry))
  }

  predicate ThreadHead(t: Table, j: nat)
    requires j < |t|
  {
    forall i: nat :: i < |t| && Prior(t, i, j) ==> !Blocking(t[i].status)
  }

  predicate ThreadIdle(t: Table, j: nat)
    requires j < |t|
  {
    forall i: nat :: i < |t| && i != j && t[i].target.thread == t[j].target.thread ==> !t[i].status.Running?
  }

  /** Returns the existing record of the message when its target agrees, refuses when it differs, inserts otherwise. */
  datatype Enqueued = Existing(id: nat) | Inserted(table: Table) | TargetConflict(id: nat)

  function FindMessage(t: Table, message: nat, n: nat): (r: Option<nat>)
    requires n <= |t|
    ensures r.Some? ==> r.value < n && t[r.value].message == message
    ensures r.None? ==> forall i: nat :: i < n ==> t[i].message != message
  {
    if n == 0 then None else if t[n - 1].message == message then Some(n - 1) else FindMessage(t, message, n - 1)
  }

  function Enqueue(t: Table, message: nat, target: Target, now: Time): Enqueued {
    match FindMessage(t, message, |t|)
    case Some(i) => if t[i].target == target then Existing(i) else TargetConflict(i)
    case None => Inserted(t + [Dispatch(message, target, Queued, 0, false, None, None, now, None)])
  }

  predicate CanClaim(t: Table, i: nat, retryLimit: nat) {
    i < |t| && Claimable(t[i], retryLimit) && ThreadHead(t, i) && ThreadIdle(t, i)
  }

  function Claim(t: Table, i: nat, token: Token, leaseSeconds: nat, retryLimit: nat, now: Time): Table {
    if !CanClaim(t, i, retryLimit) then t
    else t[i := t[i].(status := Running, attempts := t[i].attempts + 1, manualRetry := false, token := Some(token),
                      lease := Some(now + leaseSeconds), lastError := None)]
  }

  predicate Fenced(t: Table, i: nat, token: Token, now: Time) {
    i < |t| && t[i].status.Running? && t[i].token == Some(token) && t[i].lease.Some? && t[i].lease.value > now
  }

  function Renew(t: Table, i: nat, token: Token, leaseSeconds: nat, now: Time): Table {
    if !Fenced(t, i, token, now) then t else t[i := t[i].(lease := Some(now + leaseSeconds))]
  }

  /** How a claim holder ends its record; a definite failure is final once the retry budget is spent. */
  datatype Ending = Succeed | Fail(error: string) | BecomeUncertain(error: string) | Die(error: string)

  function EndStatus(e: Ending, attempts: nat, retryLimit: nat): Status {
    match e
    case Succeed => Success
    case Fail(_) => if attempts >= retryLimit + 1 then Dead else Failed
    case BecomeUncertain(_) => Uncertain
    case Die(_) => Dead
  }

  function EndError(e: Ending): Option<string> {
    match e case Succeed => None case Fail(x) => Some(x) case BecomeUncertain(x) => Some(x) case Die(x) => Some(x)
  }

  function Complete(t: Table, i: nat, token: Token, e: Ending, retryLimit: nat, now: Time): Table {
    if !Fenced(t, i, token, now) then t
    else t[i := t[i].(status := EndStatus(e, t[i].attempts, retryLimit), token := None, lease := None,
      lastError := EndError(e))]
  }

  predicate Exhausted(r: Dispatch, retryLimit: nat) {
    r.status.Failed? && r.attempts >= retryLimit + 1 && !r.manualRetry
  }

  predicate LeaseOver(r: Dispatch, now: Time) {
    r.status.Running? && r.lease.Some? && r.lease.value <= now
  }

  function FinalizeRow(r: Dispatch, retryLimit: nat, now: Time): Dispatch {
    if Exhausted(r, retryLimit) then r.(status := Dead)
    else if LeaseOver(r, now)
    then r.(status := Uncertain, token := None, lease := None, lastError := Some(LEASE_EXPIRED))
    else r
  }

  /** The sweep before every claim: exhausted failures die, expired leases become uncertain. */
  function Finalize(t: Table, retryLimit: nat, now: Time): (t': Table)
    ensures |t'| == |t| && forall i :: 0 <= i < |t| ==> t'[i] == FinalizeRow(t[i], retryLimit, now)
  {
    seq(|t|, i requires 0 <= i < |t| => FinalizeRow(t[i], retryLimit, now))
  }

  /** What an operator may decide about an uncertain record. */
  datatype Verdict = RetryApproved | MarkDead | ConfirmSuccess

  function AfterStatus(v: Verdict): Status {
    match v case RetryApproved => Failed case MarkDead => Dead case ConfirmSuccess => Success
  }

  function Decided(r: Dispatch, v: Verdict): Dispatch {
    r.(status := AfterStatus(v), manualRetry := v.RetryApproved?, lastError := if v.ConfirmSuccess? then None
      else r.lastError)
  }

  function Resolve(t: Table, i: nat, v: Verdict): Table {
    if i >= |t| || !t[i].status.Uncertain? then t else t[i := Decided(t[i], v)]
  }

  // ----- Runs -----

  datatype Action =
    | DoEnqueue(message: nat, target: Target, at: Time)
    | DoClaim(id: nat, token: Token, leaseSeconds: nat, at: Time)
    | DoRenew(id: nat, token: Token, leaseSeconds: nat, at: Time)
    | DoComplete(id: nat, token: Token, ending: Ending, at: Time)
    | DoFinalize(at: Time)
    | DoResolve(id: nat, verdict: Verdict)

  function Step(t: Table, act: Action, retryLimit: nat): Table {
    match act
    case DoEnqueue(message, target, at) => (match Enqueue(t, message, target, at) case Inserted(t') => t' case _ => t)
    case DoClaim(i, token, lease, at) => Claim(t, i, token, lease, retryLimit, at)
    case DoRenew(i, token, lease, at) => Renew(t, i, token, lease, at)
    case DoComplete(i, token, e, at) => Complete(t, i, token, e, retryLimit, at)
    case DoFinalize(at) => Finalize(t, retryLimit, at)
    case DoResolve(i, v) => Resolve(t, i, v)
  }

  function Run(t: Table, acts: seq<Action>, retryLimit: nat): Table
    decreases |acts|
  {
    if acts == [] then t else Run(Step(t, acts[0], retryLimit), acts[1..], retryLimit)
  }

  /** The table's CHECK constraints on status, attempts, claim and error fields. */
  predicate RowChecks(r: Dispatch) {
    && (r.status.Queued? <==> r.attempts == 0)
    && (r.status.Running? <==> r.token.Some?)
    && (r.token.Some? <==> r.lease.Some?)
    && (r.manualRetry ==> r.status.Failed?)
    && (r.status.Queued? || r.status.Running? || r.status.Success? ==> r.lastError.None?)
    && (r.status.Failed? || r.status.Uncertain? || r.status.Dead? ==> r.lastError.Some?)
  }

  ghost predicate OneRunning(t: Table) {
    forall i: nat, j: nat :: i < j < |t| && t[i].status.Running? && t[j].status.Running? ==>
      t[i].target.thread != t[j].target.thread
  }

  ghost predicate OnePerMessage(t: Table) {
    forall i: nat, j: nat :: i < j < |t| ==> t[i].message != t[j].message
  }

  ghost predicate Inv(t: Table) {
    (forall i: nat :: i < |t| ==> RowChecks(t[i])) && OneRunning(t) && OnePerMessage(t)
  }

  lemma StepKeeps(t: Table, act: Action, retryLimit: nat)
    requires Inv(t)
    ensures Inv(Step(t, act, retryLimit))
  {
    var t' := Step(t, act, retryLimit);
    forall i: nat | i < |t'| ensures RowChecks(t'[i]) {
      if i < |t| { assert RowChecks(t[i]); }
    }
    if act.DoFinalize? {
      assert forall i: nat :: i < |t| && t'[i].status.Running? ==> t[i].status.Running?;
      assert forall i: nat :: i < |t| ==> t'[i].target == t[i].target && t'[i].message == t[i].message;
    }
  }

  lemma {:induction false} RunKeeps(t: Table, acts: seq<Action>, retryLimit: nat)
    requires Inv(t)
    ensures Inv(Run(t, acts, retryLimit))
    decreases |acts|
  {
    if acts != [] {
      StepKeeps(t, acts[0], retryLimit);
      RunKeeps(Step(t, acts[0], retryLimit), acts[1..], retryLimit);
    }
  }

  /** Every reachable table satisfies its constraints, runs one record per thread and holds one record per message. */
  lemma ReachableTableIsConsistent(acts: seq<Action>, retryLimit: nat)
    ensures Inv(Run([], acts, retryLimit))
  {
    RunKeeps([], acts, retryLimit);
  }

  // ----- First in, first out -----

  /** A record that has ever been claimed has only finished records before it in its thread. */
  ghost predicate Fifo(t: Table) {
    forall i: nat, j: nat :: i < |t| && j < |t| && Prior(t, i, j) && t[j].attempts > 0 ==> !Blocking(t[i].status)
  }

  /** A new record does not sort before one of its thread that has already been claimed. */
  predicate InOrder(t: Table, act: Action) {
    act.DoEnqueue? ==> forall j: nat ::
      j < |t| && t[j].target.thread == act.target.thread && t[j].attempts > 0 ==> t[j].createdAt <= act.at
  }

  predicate OrderedRun(t: Table, acts: seq<Action>, retryLimit: nat)
    decreases |acts|
  {
    acts == [] || (InOrder(t, acts[0]) && OrderedRun(Step(t, acts[0], retryLimit), acts[1..], retryLimit))
  }

  ghost predicate Finished(t: Table, t': Table) {
    && |t| <= |t'|
    && (forall i: nat :: i < |t| ==>
          t'[i].target == t[i].target && t'[i].createdAt == t[i].createdAt && t'[i].message == t[i].message)
    && (forall i: nat :: i < |t| && !Blocking(t[i].status) ==> t'[i] == t[i])
  }

  lemma StepFinishes(t: Table, act: Action, retryLimit: nat)
    ensures Finished(t, Step(t, act, retryLimit))
  {}

  /** Only an enqueue makes the table longer, by its own message. */
  lemma StepGrows(t: Table, act: Action, retryLimit: nat)
    ensures var t' := Step(t, act, retryLimit);
            |t'| > |t| ==> act.DoEnqueue? && |t'| == |t| + 1 && t'[|t|].message == act.message
  {}

  lemma StepKeepsFifo(t: Table, act: Action, retryLimit: nat)
    requires Inv(t) && Fifo(t) && InOrder(t, act)
    ensures Fifo(Step(t, act, retryLimit))
  {
    var t' := Step(t, act, retryLimit);
    StepFinishes(t, act, retryLimit);
    forall i: nat, j: nat | i < |t'| && j < |t'| && Prior(t', i, j) && t'[j].attempts > 0
      ensures !Blocking(t'[i].status)
    {
      if j < |t| && i < |t| {
        assert Prior(t, i, j);
        if t[j].attempts == 0 { assert act.DoClaim? && act.id == j && ThreadHead(t, j); }
      }
    }
  }

  /**
   Within a thread no record is ever started before every earlier one has finished, over every run in creation order.
   */
  lemma {:induction false} DispatchIsFirstInFirstOut(t: Table, acts: seq<Action>, retryLimit: nat)
    requires Inv(t) && Fifo(t) && OrderedRun(t, acts, retryLimit)
    ensures Fifo(Run(t, acts, retryLimit))
    decreases |acts|
  {
    if acts != [] {
      StepKeeps(t, acts[0], retryLimit);
      StepKeepsFifo(t, acts[0], retryLimit);
      DispatchIsFirstInFirstOut(Step(t, acts[0], retryLimit), acts[1..], retryLimit);
    }
  }

  /**
   The order of creation is exactly what an insert needs: a new record keeps the queue discipline iff it arrives in
   order.
   */
  lemma InsertKeepsFifoIff(t: Table, message: nat, target: Target, at: Time)
    requires Inv(t) && Fifo(t) && FindMessage(t, message, |t|).None?
    ensures Fifo(Step(t, DoEnqueue(message, target, at), 0)) <==> InOrder(t, DoEnqueue(message, target, at))
  {
    var act := DoEnqueue(message, target, at);
    var t' := Step(t, act, 0);
    if InOrder(t, act) {
      StepKeepsFifo(t, act, 0);
    } else {
      var j: nat :| j < |t| && t[j].target.thread == target.thread && t[j].attempts > 0 && t[j].createdAt > at;
      assert Prior(t', |t|, j);
    }
  }

  /**
   A record dated before one of its thread that is already running: the thread then has a waiting head behind a running
   record.
   */
  lemma EarlierRecordBreaksFifo(retryLimit: nat, target: Target) returns (acts: seq<Action>)
    ensures acts == [DoEnqueue(1, target, 10), DoClaim(0, "token", 60, 10), DoEnqueue(2, target, 9)]
    ensures !OrderedRun([], acts, retryLimit) && !Fifo(Run([], acts, retryLimit))
  {
    acts := [DoEnqueue(1, target, 10), DoClaim(0, "token", 60, 10), DoEnqueue(2, target, 9)];
    var t1 := Step([], acts[0], retryLimit);
    var t2 := Step(t1, acts[1], retryLimit);
    var t3 := Step(t2, acts[2], retryLimit);
    assert !InOrder(t2, acts[2]) && Prior(t3, 1, 0);
    var none: seq<Action> := [];
    RunCons(t2, acts[2], none, retryLimit);
    RunCons(t1, acts[1], [acts[2]] + none, retryLimit);
    RunCons([], acts[0], [acts[1]] + ([acts[2]] + none), retryLimit);
    assert [acts[0]] + ([acts[1]] + ([acts[2]] + none)) == acts;
  }

  lemma RunCons(t: Table, act: Action, rest: seq<Action>, retryLimit: nat)
    ensures Run(t, [act] + rest, retryLimit) == Run(Step(t, act, retryLimit), rest, retryLimit)
    ensures OrderedRun(t, [act] + rest, retryLimit)
      <==> InOrder(t, act) && OrderedRun(Step(t, act, retryLimit), rest, retryLimit)
  {
    assert ([act] + rest)[1..] == rest;
  }

  /** success and dead are final: such a record never changes again, in any continuation. */
  lemma {:induction false} FinishedStaysFinished(t: Table, acts: seq<Action>, retryLimit: nat)
    ensures Finished(t, Run(t, acts, retryLimit))
    decreases |acts|
  {
    if acts != [] {
      StepFinishes(t, acts[0], retryLimit);
      FinishedStaysFinished(Step(t, acts[0], retryLimit), acts[1..], retryLimit);
    }
  }

  /** An uncertain record waits for its operator: no automatic step touches it, and it holds back its whole thread. */
  lemma {:induction false} UncertainWaits(t: Table, acts: seq<Action>, retryLimit: nat, i: nat)
    requires i < |t| && t[i].status.Uncertain?
    requires forall k :: 0 <= k < |acts| ==> !(acts[k].DoResolve? && acts[k].id == i)
    ensures i < |Run(t, acts, retryLimit)| && Run(t, acts, retryLimit)[i] == t[i]
    ensures forall j: nat :: j < |t| && Prior(t, i, j) ==>
              j < |Run(t, acts, retryLimit)|
                && (t[j].status.Running? || Run(t, acts, retryLimit)[j].attempts == t[j].attempts)
    decreases |acts|
  {
    if acts != [] {
      var t1 := Step(t, acts[0], retryLimit);
      StepFinishes(t, acts[0], retryLimit);
      assert t1[i] == t[i];
      UncertainWaits(t1, acts[1..], retryLimit, i);
      forall j: nat | j < |t| && Prior(t, i, j)
        ensures t[j].status.Running? || Run(t1, acts[1..], retryLimit)[j].attempts == t[j].attempts
      {
        assert Prior(t1, i, j);
        assert !CanClaim(t, j, retryLimit);
      }
    }
  }

  // ----- Bounded attempts -----

  predicate Approves(t: Table, act: Action, i: nat) {
    act.DoResolve? && act.id == i && act.verdict.RetryApproved? && i < |t| && t[i].status.Uncertain?
  }

  function Approvals(acts: seq<Action>, t: Table, i: nat, retryLimit: nat): nat
    decreases |acts|
  {
    if acts == [] then 0
    else (if Approves(t, acts[0], i) then 1 else 0) + Approvals(acts[1..], Step(t, acts[0], retryLimit), i, retryLimit)
  }

  predicate WithinBudget(t: Table, i: nat, retryLimit: nat, approved: nat) {
    i < |t| ==>
      t[i].attempts <= retryLimit + 1 + approved && (t[i].manualRetry ==> t[i].attempts <= retryLimit + approved)
  }

  lemma {:induction false} BudgetHolds(t: Table, acts: seq<Action>, i: nat, retryLimit: nat, approved: nat)
    requires Inv(t) && WithinBudget(t, i, retryLimit, approved)
    ensures WithinBudget(Run(t, acts, retryLimit), i, retryLimit, approved + Approvals(acts, t, i, retryLimit))
    decreases |acts|
  {
    if acts != [] {
      StepKeeps(t, acts[0], retryLimit);
      var one := if Approves(t, acts[0], i) then 1 else 0;
      assert i < |t| ==> RowChecks(t[i]);
      BudgetHolds(Step(t, acts[0], retryLimit), acts[1..], i, retryLimit, approved + one);
    }
  }

  /** A dispatch runs at most retry_limit + 1 times plus once per approved retry. */
  lemma DispatchAttemptsAreBounded(acts: seq<Action>, i: nat, retryLimit: nat)
    requires i < |Run([], acts, retryLimit)|
    ensures Run([], acts, retryLimit)[i].attempts <= retryLimit + 1 + Approvals(acts, [], i, retryLimit)
  {
    BudgetHolds([], acts, i, retryLimit, 0);
  }

  // ----- The store -----

  /** Claim order: fewest attempts, then created_at, then the identifier. */
  predicate Sooner(x: Dispatch, y: Dispatch) {
    x.attempts < y.attempts || (x.attempts == y.attempts && x.createdAt < y.createdAt)
  }

  /** The first record that can be claimed, among the first `n`, in claim order. */
  function NextClaimable(t: Table, retryLimit: nat, n: nat): (r: Option<nat>)
    requires n <= |t|
    ensures r.None? ==> forall i: nat :: i < n ==> !CanClaim(t, i, retryLimit)
    ensures r.Some? ==> r.value < n && CanClaim(t, r.value, retryLimit)
    ensures r.Some? ==> forall i: nat :: i < n && CanClaim(t, i, retryLimit) && i != r.value ==>
              || t[r.value].attempts < t[i].attempts
              || (t[r.value].attempts == t[i].attempts && t[r.value].createdAt < t[i].createdAt)
              || (t[r.value].attempts == t[i].attempts && t[r.value].createdAt == t[i].createdAt && r.value < i)
  {
    if n == 0 then None
    else
      var best := NextClaimable(t, retryLimit, n - 1);
      if CanClaim(t, n - 1, retryLimit) && (best.None? || Sooner(t[n - 1], t[best.value])) then Some(n - 1) else best
  }

  predicate ClaimsAs(act: Action, token: Token) {
    act.DoClaim? && act.token == token
  }

  /** How often a claim was tried under this token. */
  function Tries(log: seq<Action>, token: Token): nat {
    if log == [] then 0
    else Tries(log[..|log| - 1], token) + if ClaimsAs(log[|log| - 1], token) then 1 else 0
  }

  /** At some point of the log from `from` on this record was the first that could be claimed. */
  ghost predicate FirstInLine(log: seq<Action>, from: nat, i: nat, retryLimit: nat) {
    exists n: nat :: from <= n <= |log|
      && var t := Run([], log[..n], retryLimit); NextClaimable(t, retryLimit, |t|) == Some(i)
  }

  /** HermesDispatchRecordStore over the shared table; `log` is the run that produced it. */
  class DispatchStore {
    const retryLimit: nat
    var records: Table
    ghost var log: seq<Action>

    constructor (retryLimit: nat)
      ensures Valid() && this.retryLimit == retryLimit && records == []
    {
      this.retryLimit := retryLimit;
      records, log := [], [];
    }

    ghost predicate Valid()
      reads this
    {
      records == Run([], log, retryLimit)
    }

    ghost method Record(act: Action)
      requires records == Step(Run([], log, retryLimit), act, retryLimit)
      modifies this`log
      ensures Valid() && log == old(log) + [act]
      ensures forall token :: Tries(log, token) == Tries(old(log), token) + if ClaimsAs(act, token) then 1 else 0
    {
      RunSnoc([], log, act, retryLimit);
      assert (log + [act])[..|log|] == log;
      log := log + [act];
    }

    /** Other sessions commit actions of their own between two of our statements; none of them has our token. */
    method Others(ghost token: Token)
      requires Valid()
      modifies this
      ensures Valid() && old(log) <= log && Finished(old(records), records)
      ensures Tries(log, token) == Tries(old(log), token)
    {
    }

    /** The two updates of the sweep. Neither leaves anything for the other, or for a second sweep at the same time. */
    method FinalizeExhausted(now: Time)
      requires Valid()
      modifies this
      ensures Valid() && old(log) <= log && |records| == |old(records)|
      ensures forall token :: Tries(log, token) == Tries(old(log), token)
      ensures forall i: nat :: i < |records| ==> !Exhausted(records[i], retryLimit) && !LeaseOver(records[i], now)
      ensures forall i: nat :: i < |records| && Exhausted(old(records)[i], retryLimit) ==>
                records[i] == old(records)[i].(status := Dead)
      ensures forall i: nat :: i < |records| && LeaseOver(old(records)[i], now) ==>
                records[i] == old(records)[i].(
                  status := Uncertain, token := None, lease := None, lastError := Some(LEASE_EXPIRED))
      ensures forall i: nat ::
                i < |records| && !Exhausted(old(records)[i], retryLimit) && !LeaseOver(old(records)[i], now) ==>
                  records[i] == old(records)[i]
    {
      var before, limit := records, retryLimit;
      records := seq(|before|, i requires 0 <= i < |before| =>
        if Exhausted(before[i], limit) then before[i].(status := Dead) else before[i]);
      var buried := records;
      records := seq(|buried|, i requires 0 <= i < |buried| =>
        if LeaseOver(buried[i], now)
        then buried[i].(status := Uncertain, token := None, lease := None, lastError := Some(LEASE_EXPIRED))
          else buried[i]);
      assert records == Finalize(before, retryLimit, now);
      Record(DoFinalize(now));
    }

    /**
     Claims the first eligible thread head. It comes back with nothing only when nothing could be claimed or when all of
     its 32 tries were lost to others.
     */
    method ClaimNext(token: Token, leaseSeconds: nat, now: Time) returns (claimed: Option<nat>)
      requires Valid()
      modifies this
      ensures Valid() && old(log) <= log
      ensures claimed.None? ==>
                Tries(log, token) == Tries(old(log), token) + 32 || forall i: nat :: !CanClaim(records, i, retryLimit)
      ensures claimed.Some? ==>
                && claimed.value < |records| && records[claimed.value].status.Running?
                && records[claimed.value].token == Some(token)
                   && records[claimed.value].lease == Some(now + leaseSeconds)
                && FirstInLine(log, |old(log)|, claimed.value, retryLimit)
    {
      FinalizeExhausted(now);
      for tries := 0 to 32
        invariant Valid() && old(log) <= log && Tries(log, token) == Tries(old(log), token) + tries
      {
        var candidate := NextClaimable(records, retryLimit, |records|);
        if candidate.None? { return None; }
        ghost var scan := log;
        Others(token);
        var won := ClaimRecord(candidate.value, token, leaseSeconds, now);
        if won {
          assert log[..|scan|] == scan;
          return candidate;
        }
      }
      return None;
    }

    /** The compare-and-swap of a claim re-checks status, order and idleness. */
    method ClaimRecord(i: nat, token: Token, leaseSeconds: nat, now: Time) returns (won: bool)
      requires Valid() && i < |records|
      modifies this
      ensures Valid() && old(log) <= log && Tries(log, token) == Tries(old(log), token) + 1
      ensures won <==> old(CanClaim(records, i, retryLimit))
      ensures records == Claim(old(records), i, token, leaseSeconds, retryLimit, now)
    {
      won := CanClaim(records, i, retryLimit);
      if won {
        var r := records[i];
        records := records[i := r.(status := Running, attempts := r.attempts + 1, manualRetry := false,
                                   token := Some(token), lease := Some(now + leaseSeconds), lastError := None)];
      }
      Record(DoClaim(i, token, leaseSeconds, now));
    }

    /** Every terminal write of a worker is fenced by its token and a lease that has not run out. */
    method CompleteRecord(i: nat, token: Token, e: Ending, now: Time) returns (done: bool)
      requires Valid()
      modifies this
      ensures Valid() && old(log) <= log
      ensures done <==> old(Fenced(records, i, token, now))
      ensures records == Complete(old(records), i, token, e, retryLimit, now)
    {
      done := Fenced(records, i, token, now);
      if done {
        var r := records[i];
        records := records[i :=
          r.(status := EndStatus(e, r.attempts, retryLimit), token := None, lease := None, lastError := EndError(e))];
        Record(DoComplete(i, token, e, now));
      }
    }
  }

  lemma {:induction false} RunSnoc(t: Table, acts: seq<Action>, act: Action, retryLimit: nat)
    ensures Run(t, acts + [act], retryLimit) == Step(Run(t, acts, retryLimit), act, retryLimit)
    decreases |acts|
  {
    if acts == [] {
      assert acts + [act] == [act];
    } else {
      assert (acts + [act])[1..] == acts[1..] + [act];
      RunSnoc(Step(t, acts[0], retryLimit), acts[1..], act, retryLimit);
    }
  }
}
