/** When claims are made and how long they are left alone; how long a requeued delivery waits. */
module DeliveryClaims {
  import opened Basics
  import opened DeliveryOutbox
  import opened DeliveryInvariant
  import opened ChannelSend
  import opened DeliveryProtocol
  import opened DeliverySafety
  import opened DeliveryTheorems

  // ----- A claim keeps the time it was made -----

  /** Every claim that stands under this token was made at `t`. */
  ghost predicate MadeAt(w: World, token: Token, t: Time) {
    token in w.used && forall d: nat :: Held(w.db, d, token) ==> w.db.deliveries[d].claimedAt == Some(t)
  }

  lemma ClaimIsMade(w: World, k: nat, d: nat, channel: string, token: Token, t: Time)
    requires TokensUsed(w) && ClaimStep(w, k, d, channel, token, t) != w
    ensures var w' := ClaimStep(w, k, d, channel, token, t); Held(w'.db, d, token) && MadeAt(w', token, t)
    ensures d < |w.db.deliveries| && w.db.deliveries[d].channel == channel && w.db.deliveries[d].availableAt <= t
    ensures w.db.deliveries[d].status.Queued?
  {
  }

  /** A claim of a used token that stands after a step stood before it, with the same time. */
  ghost predicate NotNew(w: World, w': World, d: nat, token: Token) {
    Held(w'.db, d, token) ==> Held(w.db, d, token) && w'.db.deliveries[d].claimedAt == w.db.deliveries[d].claimedAt
  }

  lemma SessionsMakeNoOldClaim(w: World, act: Action, m: nat, d: nat, token: Token)
    requires OnTables(act) && token in w.used
    ensures NotNew(w, Step(w, act, m), d, token)
  {
  }

  lemma WorkersMakeNoClaim(w: World, act: Action, m: nat, d: nat, token: Token)
    requires !OnTables(act) && token in w.used
    ensures NotNew(w, Step(w, act, m), d, token)
  {
    match act
    case DoMark(k, payload, at, report) =>
    case DoRecordFailure(k, code, retryAt, at) =>
    case _ =>
  }

  lemma StepKeepsMade(w: World, act: Action, m: nat, token: Token, t: Time)
    requires MadeAt(w, token, t)
    ensures MadeAt(Step(w, act, m), token, t)
  {
    UsedGrows(w, act, m);
    var w' := Step(w, act, m);
    forall d: nat | Held(w'.db, d, token)
      ensures w'.db.deliveries[d].claimedAt == Some(t)
    {
      StepMakesNoOldClaim(w, act, m, d, token);
    }
  }

  lemma StepMakesNoOldClaim(w: World, act: Action, m: nat, d: nat, token: Token)
    requires token in w.used
    ensures NotNew(w, Step(w, act, m), d, token)
  {
    if OnTables(act) { SessionsMakeNoOldClaim(w, act, m, d, token); } else { WorkersMakeNoClaim(w, act, m, d, token); }
  }

  lemma {:induction false} RunKeepsMade(w: World, acts: seq<Action>, m: nat, token: Token, t: Time)
    requires MadeAt(w, token, t)
    ensures MadeAt(Run(w, acts, m), token, t)
    decreases |acts|
  {
    if acts != [] {
      StepKeepsMade(w, acts[0], m, token, t);
      RunKeepsMade(Step(w, acts[0], m), acts[1..], m, token, t);
    }
  }

  /**
   After a claim at time `t`, in every continuation whatever, no recovery of that claim commits with an earlier cutoff,
   and no step of a session that recovers with an earlier cutoff ends it.
   */
  lemma YoungClaimIsKept(w: World, k: nat, d: nat, channel: string, token: Token, t: Time, acts: seq<Action>, m: nat,
                         look: ClaimLook, act: Action)
    requires TokensUsed(w) && ClaimStep(w, k, d, channel, token, t) != w
    requires look.token == token && act.DoRecover? && act.cutoff < t
    ensures var w' := Run(ClaimStep(w, k, d, channel, token, t), acts, m);
      && RecoverCommit(w'.db, look, act.channel, act.cutoff, act.at).Refused?
      && (forall e: nat :: Held(w'.db, e, token) ==> Held(Step(w', act, m).db, e, token))
  {
    var w1 := ClaimStep(w, k, d, channel, token, t);
    ClaimIsMade(w, k, d, channel, token, t);
    RunKeepsMade(w1, acts, m, token, t);
    var w' := Run(w1, acts, m);
    forall e: nat | Held(w'.db, e, token) ensures Held(Step(w', act, m).db, e, token) {
      if !Held(Step(w', act, m).db, e, token) { EndsOnlyOldClaims(w', act, m, e, token); }
    }
  }

  /** Whatever claim a recovery ends is at least as old as its cutoff and of its channel. */
  lemma EndsOnlyOldClaims(w: World, act: Action, m: nat, d: nat, token: Token)
    requires act.DoRecover? && Held(w.db, d, token) && !Held(Step(w, act, m).db, d, token)
    ensures w.db.deliveries[d].claimedAt.Some? && w.db.deliveries[d].claimedAt.value <= act.cutoff
    ensures w.db.deliveries[d].channel == act.channel
  {
  }

  // ----- What one call does, read off the log -----

  /** A step of session `k` in a call made at `now` for this channel. */
  predicate OnTime(act: Action, k: nat, channel: string, cutoff: Time, now: Time) {
    match act
    case DoClaim(worker, _, c, _, at) => worker == k ==> c == channel && at == now
    case DoRecover(session, c, limit, at) => session == k ==> c == channel && limit == cutoff && at == now
    case DoMark(worker, _, at, _) => worker == k ==> now <= at
    case DoRecordFailure(worker, _, _, at) => worker == k ==> now <= at
    case _ => true
  }

  /** Everything session `k` did between two points of the log is of one call. */
  ghost predicate Timely(before: seq<Action>, after: seq<Action>, k: nat, channel: string, cutoff: Time, now: Time) {
    before <= after && forall i: nat :: |before| <= i < |after| ==> OnTime(after[i], k, channel, cutoff, now)
  }

  /** Session `k` did nothing that carries a time. */
  ghost predicate Quiet(before: seq<Action>, after: seq<Action>, k: nat) {
    before <= after && forall i: nat :: |before| <= i < |after| ==> Timeless(after[i], k)
  }

  predicate Timeless(act: Action, k: nat) {
    match act
    case DoClaim(worker, _, _, _, _) => worker != k
    case DoRecover(session, _, _, _) => session != k
    case DoMark(worker, _, _, _) => worker != k
    case DoRecordFailure(worker, _, _, _) => worker != k
    case _ => true
  }

  /** Session `k` neither claimed nor recovered; what it recorded it recorded at this time. */
  ghost predicate Settles(before: seq<Action>, after: seq<Action>, k: nat, at: Time) {
    before <= after && forall i: nat :: |before| <= i < |after| ==> SettledAt(after[i], k, at)
  }

  predicate SettledAt(act: Action, k: nat, at: Time) {
    match act
    case DoMark(worker, _, t, _) => worker == k ==> t == at
    case DoRecordFailure(worker, _, _, t) => worker == k ==> t == at
    case _ => Timeless(act, k)
  }

  lemma QuietThenSettles(before: seq<Action>, middle: seq<Action>, after: seq<Action>, k: nat, at: Time)
    requires Quiet(before, middle, k) && Settles(middle, after, k, at)
    ensures Settles(before, after, k, at)
  {
    forall i: nat | |before| <= i < |after| ensures SettledAt(after[i], k, at) {
      if i < |middle| { assert after[i] == middle[i] && Timeless(middle[i], k); }
    }
  }

  lemma SettlesJoins(before: seq<Action>, middle: seq<Action>, after: seq<Action>, k: nat, at: Time)
    requires Settles(before, middle, k, at) && Settles(middle, after, k, at)
    ensures Settles(before, after, k, at)
  {
    forall i: nat | |before| <= i < |after| ensures SettledAt(after[i], k, at) {
      if i < |middle| { assert after[i] == middle[i]; }
    }
  }

  lemma SettledIsTimely(before: seq<Action>, middle: seq<Action>, after: seq<Action>, k: nat, channel: string,
                        cutoff: Time, now: Time, at: Time)
    requires Timely(before, middle, k, channel, cutoff, now) && Settles(middle, after, k, at) && now <= at
    ensures Timely(before, after, k, channel, cutoff, now)
  {
    forall i: nat | |before| <= i < |after| ensures OnTime(after[i], k, channel, cutoff, now) {
      if i < |middle| { assert after[i] == middle[i]; } else { assert SettledAt(after[i], k, at); }
    }
  }

  /** A step taken by worker or session `k`. */
  predicate By(act: Action, k: nat) {
    match act
    case DoEnqueue(_, _, _, _, _, _) => false
    case DoLookRecover(session, _) => session == k
    case DoRecover(session, _, _, _) => session == k
    case DoLookRetry(session, _, _) => session == k
    case DoRetry(session, _) => session == k
    case _ => act.worker == k
  }

  /** Between two points of the log only others acted. */
  ghost predicate Absent(before: seq<Action>, after: seq<Action>, k: nat) {
    before <= after && forall i: nat :: |before| <= i < |after| ==> !By(after[i], k)
  }

  lemma AbsentIsQuiet(before: seq<Action>, after: seq<Action>, k: nat)
    requires Absent(before, after, k)
    ensures Quiet(before, after, k)
  {
    forall i: nat | |before| <= i < |after| ensures Timeless(after[i], k) { assert !By(after[i], k); }
  }

  lemma QuietIsTimely(before: seq<Action>, middle: seq<Action>, after: seq<Action>, k: nat, channel: string,
                      cutoff: Time, now: Time)
    requires Timely(before, middle, k, channel, cutoff, now) && Quiet(middle, after, k)
    ensures Timely(before, after, k, channel, cutoff, now)
  {
    forall i: nat | |before| <= i < |after| ensures OnTime(after[i], k, channel, cutoff, now) {
      if i < |middle| { assert after[i] == middle[i]; } else { assert Timeless(after[i], k); }
    }
  }

  lemma TimelyJoins(before: seq<Action>, middle: seq<Action>, after: seq<Action>, k: nat, channel: string, cutoff: Time,
                    now: Time)
    requires Timely(before, middle, k, channel, cutoff, now) && Timely(middle, after, k, channel, cutoff, now)
    ensures Timely(before, after, k, channel, cutoff, now)
  {
    forall i: nat | |before| <= i < |after| ensures OnTime(after[i], k, channel, cutoff, now) {
      if i < |middle| { assert after[i] == middle[i]; }
    }
  }

  /** The state before the step at position `i` of a log. */
  function At(log: seq<Action>, i: nat, m: nat): World
    requires i <= |log|
  {
    Run(INITIAL, log[..i], m)
  }

  lemma NextAt(log: seq<Action>, i: nat, m: nat)
    requires i < |log|
    ensures At(log, i + 1, m) == Step(At(log, i, m), log[i], m)
  {
    assert log[..i + 1] == log[..i] + [log[i]];
    RunSnoc(INITIAL, log[..i], log[i], m);
  }

  /** How often `k` tried to claim between two points of the log. */
  function ClaimsBy(before: seq<Action>, after: seq<Action>, k: nat): nat
    decreases |after|
  {
    if |after| <= |before| then 0
    else
      var act := after[|after| - 1];
      ClaimsBy(before, after[..|after| - 1], k) + if act.DoClaim? && act.worker == k then 1 else 0
  }

  lemma {:induction false} AbsentClaimsNothing(before: seq<Action>, middle: seq<Action>, after: seq<Action>, k: nat)
    requires before <= middle && Absent(middle, after, k)
    ensures ClaimsBy(before, after, k) == ClaimsBy(before, middle, k)
    decreases |after|
  {
    if after == middle {
    } else {
      var n := |after| - 1;
      assert !By(after[n], k);
      AbsentClaimsNothing(before, middle, after[..n], k);
    }
  }

  lemma OneMoreClaim(before: seq<Action>, log: seq<Action>, act: Action, k: nat)
    requires before <= log && act.DoClaim? && act.worker == k
    ensures ClaimsBy(before, log + [act], k) == ClaimsBy(before, log, k) + 1
  {
    assert (log + [act])[..|log|] == log;
  }

  lemma {:induction false} LongerStretchClaimsMore(before: seq<Action>, middle: seq<Action>, after: seq<Action>, k: nat)
    requires |before| <= |middle|
    ensures ClaimsBy(middle, after, k) <= ClaimsBy(before, after, k)
    decreases |after|
  {
    if |after| > |middle| { LongerStretchClaimsMore(before, middle, after[..|after| - 1], k); }
  }

  /**
   At position `i` session `k` looked at the claim of `d` and then tried to end it, or there was no claim to look at.
   */
  ghost predicate TriedAt(log: seq<Action>, i: nat, k: nat, d: nat, channel: string, cutoff: Time, now: Time, m: nat)
    requires i <= |log|
  {
    || LookAtClaim(At(log, i, m).db, d).None?
    || (exists j: nat :: i < j < |log| && log[i] == DoLookRecover(k, d) && log[j] == DoRecover(k, channel, cutoff, now)
          && Absent(log[..i + 1], log[..j], k))
  }

  ghost predicate Tried(before: seq<Action>, after: seq<Action>, k: nat, d: nat, channel: string, cutoff: Time,
                        now: Time, m: nat) {
    exists i: nat :: |before| <= i <= |after| && TriedAt(after, i, k, d, channel, cutoff, now, m)
  }

  lemma TriedStays(before: seq<Action>, from: seq<Action>, middle: seq<Action>, after: seq<Action>, k: nat, d: nat,
                   channel: string, cutoff: Time, now: Time, m: nat)
    requires before <= from && middle <= after && Tried(from, middle, k, d, channel, cutoff, now, m)
    ensures Tried(before, after, k, d, channel, cutoff, now, m)
  {
    var i: nat :| |from| <= i <= |middle| && TriedAt(middle, i, k, d, channel, cutoff, now, m);
    assert after[..i] == middle[..i];
    if LookAtClaim(At(middle, i, m).db, d).Some? {
      var j: nat :| i < j < |middle| && middle[i] == DoLookRecover(k, d)
        && middle[j] == DoRecover(k, channel, cutoff, now)
        && Absent(middle[..i + 1], middle[..j], k);
      assert after[..i + 1] == middle[..i + 1] && after[..j] == middle[..j];
    }
    assert TriedAt(after, i, k, d, channel, cutoff, now, m);
  }

  /** At position `j` of the log a claim under this token was made. */
  ghost predicate ClaimedAt(log: seq<Action>, j: nat, token: Token, m: nat) {
    j < |log| && log[j].DoClaim? && log[j].token == token && At(log, j + 1, m) != At(log, j, m)
  }

  lemma LogRemembers(log: seq<Action>, j: nat, i: nat, token: Token, m: nat)
    requires ClaimedAt(log, j, token, m) && j < i <= |log|
    ensures MadeAt(At(log, i, m), token, log[j].at)
  {
    NextAt(log, j, m);
    InitialUsesNothing(log[..j], m);
    ClaimIsMade(At(log, j, m), log[j].worker, log[j].delivery, log[j].channel, token, log[j].at);
    assert log[..i] == log[..j + 1] + log[j + 1..i];
    RunAppend(INITIAL, log[..j + 1], log[j + 1..i], m);
    RunKeepsMade(At(log, j + 1, m), log[j + 1..i], m, token, log[j].at);
  }

  lemma InitialUsesNothing(acts: seq<Action>, m: nat)
    ensures TokensUsed(Run(INITIAL, acts, m))
  {
    RunKeepsTokens(INITIAL, acts, m);
  }

  lemma SessionsKeepTokens(w: World, act: Action, m: nat)
    requires TokensUsed(w) && OnTables(act)
    ensures TokensUsed(Step(w, act, m))
  {
  }

  lemma WorkersKeepTokens(w: World, act: Action, m: nat)
    requires TokensUsed(w) && !OnTables(act)
    ensures TokensUsed(Step(w, act, m))
  {
    match act
    case DoMark(k, payload, at, report) =>
    case DoRecordFailure(k, code, retryAt, at) =>
    case _ =>
  }

  lemma {:induction false} RunKeepsTokens(w: World, acts: seq<Action>, m: nat)
    requires TokensUsed(w)
    ensures TokensUsed(Run(w, acts, m))
    decreases |acts|
  {
    if acts != [] {
      if OnTables(acts[0]) { SessionsKeepTokens(w, acts[0], m); } else { WorkersKeepTokens(w, acts[0], m); }
      RunKeepsTokens(Step(w, acts[0], m), acts[1..], m);
    }
  }

  /**
   A call made before `t + timeout` leaves a claim made at `t` alone: whatever ends the claim in the course of the call
   is no recovery of this session.
   */
  ghost predicate Spares(before: seq<Action>, after: seq<Action>, k: nat, timeout: nat, now: Time, m: nat) {
    forall j: nat, i: nat, d: nat, token: Token ::
      ClaimedAt(after, j, token, m) && now < after[j].at + timeout && j < i && |before| <= i < |after|
      && after[i].DoRecover? && after[i].session == k && Held(At(after, i, m).db, d, token)
      ==> Held(At(after, i + 1, m).db, d, token)
  }

  lemma TimelyCallSpares(before: seq<Action>, after: seq<Action>, k: nat, channel: string, timeout: nat, now: Time,
                         m: nat)
    requires Timely(before, after, k, channel, now - timeout, now)
    ensures Spares(before, after, k, timeout, now, m)
  {
    forall j: nat, i: nat, d: nat, token: Token |
      ClaimedAt(after, j, token, m) && now < after[j].at + timeout && j < i && |before| <= i < |after|
      && after[i].DoRecover? && after[i].session == k && Held(At(after, i, m).db, d, token)
      ensures Held(At(after, i + 1, m).db, d, token)
    {
      assert OnTime(after[i], k, channel, now - timeout, now);
      LogRemembers(after, j, i, token, m);
      NextAt(after, i, m);
      if !Held(At(after, i + 1, m).db, d, token) { EndsOnlyOldClaims(At(after, i, m), after[i], m, d, token); }
    }
  }

  // ----- A requeued delivery waits -----

  /** How a failure that was recorded leaves its delivery and its attempt. */
  ghost predicate EndsAs(w: World, w': World, x: Phase, status: DeliveryStatus, attempt: AttemptStatus, code: string,
                         at: Time)
    requires x.Busy?
  {
    && x.delivery < |w.db.deliveries| == |w'.db.deliveries| && x.attempt < |w.db.attempts| == |w'.db.attempts|
    && var r, r', a' := w.db.deliveries[x.delivery], w'.db.deliveries[x.delivery], w'.db.attempts[x.attempt];
    && r'.status == status && r'.claimToken.None? && r'.lastError == Some(code) && r'.nextPart == r.nextPart
    && a'.status == attempt && a'.error == Some(code) && a'.completedAt == Some(at)
    && (r'.completedAt == if status == DeliveryStatus.Queued then None else Some(at))
    && r.responseId in w'.db.responses
    && (status == DeliveryStatus.Failed ==> w'.db.responses[r.responseId].status == ResponseStatus.Failed)
    && (status == DeliveryStatus.Uncertain ==> w'.db.responses[r.responseId].status == ResponseStatus.Uncertain)
  }

  /**
   A worker that records its failure while it holds the claim: a retryable one is queued again until `retryAt` as long
   as attempts are left, an uncertain one is quarantined and any other is final.
   */
  lemma FailureEndsAs(w: World, act: Action, m: nat)
    requires Inv(w, m) && act.DoRecordFailure? && act.worker in w.workers
    requires w.workers[act.worker].Busy? && w.workers[act.worker].stage.Failing?
    requires Held(w.db, w.workers[act.worker].delivery, w.workers[act.worker].token)
    ensures var w', x := Step(w, act, m), w.workers[act.worker];
      && act.worker !in w'.workers
      && (match Classify(x.stage.error)
          case Retryable =>
            if x.number < m then
              && EndsAs(w, w', x, DeliveryStatus.Queued, AttemptStatus.Failed, act.code, act.at)
              && w'.db.deliveries[x.delivery].availableAt == act.retryAt
            else EndsAs(w, w', x, DeliveryStatus.Failed, AttemptStatus.Failed, act.code, act.at)
          case Permanent => EndsAs(w, w', x, DeliveryStatus.Failed, AttemptStatus.Failed, act.code, act.at)
          case Uncertain => EndsAs(w, w', x, DeliveryStatus.Uncertain, AttemptStatus.Uncertain, act.code, act.at))
  {
    var x := w.workers[act.worker];
    assert PhaseOk(w, x) && InFlightOk(w.db, x.attempt) && RowOk(w.db, x.delivery);
  }

  /** An operator only ever looked at deliveries that had stopped. */
  ghost predicate StopsOnly(w: World) {
    forall s: nat :: s in w.looks && w.looks[s].AtStop? ==> !w.looks[s].stop.status.Queued?
  }

  lemma StepKeepsStops(w: World, act: Action, m: nat)
    requires StopsOnly(w)
    ensures StopsOnly(Step(w, act, m))
  {
    if !OnTables(act) { WorkerStepGrows(w, act, m, Step(w, act, m)); }
  }

  ghost predicate Waits(w: World, d: nat, r: Delivery) {
    d < |w.db.deliveries| && w.db.deliveries[d] == r && r.status.Queued? && StopsOnly(w)
  }

  predicate TooEarly(act: Action, d: nat, r: Delivery) {
    act.DoClaim? && act.delivery == d ==> act.at < r.availableAt
  }

  lemma SessionsLetWait(w: World, act: Action, m: nat, d: nat, r: Delivery)
    requires Waits(w, d, r) && OnTables(act) && TooEarly(act, d, r)
    ensures d < |Step(w, act, m).db.deliveries| && Step(w, act, m).db.deliveries[d] == r
  {
  }

  lemma WorkersLetWait(w: World, act: Action, m: nat, d: nat, r: Delivery)
    requires Waits(w, d, r) && !OnTables(act)
    ensures d < |Step(w, act, m).db.deliveries| && Step(w, act, m).db.deliveries[d] == r
  {
    match act
    case DoMark(k, payload, at, report) =>
    case DoRecordFailure(k, code, retryAt, at) =>
    case _ =>
  }

  /**
   A queued delivery waits until it is due: in every continuation whose claims of it all come before its time, it is not
   touched, whatever workers, recoveries and operators do.
   */
  lemma {:induction false} QueuedDeliveryWaits(w: World, acts: seq<Action>, m: nat, d: nat, r: Delivery)
    requires Waits(w, d, r) && forall i: nat :: i < |acts| ==> TooEarly(acts[i], d, r)
    ensures Waits(Run(w, acts, m), d, r)
    decreases |acts|
  {
    if acts != [] {
      if OnTables(acts[0]) { SessionsLetWait(w, acts[0], m, d, r); } else { WorkersLetWait(w, acts[0], m, d, r); }
      StepKeepsStops(w, acts[0], m);
      QueuedDeliveryWaits(Step(w, acts[0], m), acts[1..], m, d, r);
    }
  }

  lemma {:induction false} ReachableStopsOnly(w: World, acts: seq<Action>, m: nat)
    requires StopsOnly(w)
    ensures StopsOnly(Run(w, acts, m))
    decreases |acts|
  {
    if acts != [] {
      StepKeepsStops(w, acts[0], m);
      ReachableStopsOnly(Step(w, acts[0], m), acts[1..], m);
    }
  }

  /** Whatever led to the state in which the delivery is queued, it waits from there. */
  lemma RequeuedDeliveryWaits(acts: seq<Action>, more: seq<Action>, m: nat, d: nat)
    requires var w := Run(INITIAL, acts, m); d < |w.db.deliveries| && w.db.deliveries[d].status.Queued?
    requires var r := Run(INITIAL, acts, m).db.deliveries[d]; forall i: nat :: i < |more| ==> TooEarly(more[i], d, r)
    ensures var w, w' := Run(INITIAL, acts, m), Run(INITIAL, acts + more, m);
      d < |w'.db.deliveries| && w'.db.deliveries[d] == w.db.deliveries[d]
  {
    var w := Run(INITIAL, acts, m);
    ReachableStopsOnly(INITIAL, acts, m);
    RunAppend(INITIAL, acts, more, m);
    QueuedDeliveryWaits(w, more, m, d, w.db.deliveries[d]);
  }
}
