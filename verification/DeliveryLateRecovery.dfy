/** When a recovery may commit: the exact condition for sending once, over all that can follow. */
module DeliveryLateRecovery {
  import opened Basics
  import opened DeliveryOutbox
  import opened DeliveryInvariant
  import opened ChannelSend
  import opened DeliveryProtocol
  import opened DeliverySafety
  import opened DeliveryTheorems
  import opened DeliveryMending
  import opened DeliveryStrays
  import Guests = DeliveryGuests

  // ----- A worker that failed and lost its claim does nothing more -----

  ghost predicate Bystander(w: World, l: nat) {
    l in w.workers && w.workers[l].Busy? && w.workers[l].stage.Failing? && Ended(w, w.workers[l].token)
  }

  /** Good, but for a worker that can only leave. */
  ghost predicate Watched(w: World, l: nat, d: nat, stray: Option<nat>, m: nat) {
    Good(w, d, stray, m) || (Bystander(w, l) && Good(Leave(w, l), d, stray, m))
  }

  lemma WatchedStep(w: World, act: Action, l: nat, d: nat, stray: Option<nat>, m: nat)
    requires Watched(w, l, d, stray, m) && 0 < m && FencedStep(w, act)
    ensures Watched(Step(w, act, m), l, d, stray, m)
  {
    if Good(w, d, stray, m) {
      GoodStep(w, act, d, stray, m);
    } else if (act.DoClaim? || !OnTables(act)) && act.worker == l {
      BystanderStep(w, act, l, m);
    } else {
      Guests.OthersCommute(w, act, l, m);
      GoodStep(Leave(w, l), act, d, stray, m);
      EndedStays(w, act, m, w.workers[l].token);
    }
  }

  lemma BystanderStep(w: World, act: Action, l: nat, m: nat)
    requires Bystander(w, l) && (act.DoClaim? || !OnTables(act)) && act.worker == l
    ensures Step(w, act, m) == w || Step(w, act, m) == Leave(w, l)
  {
    assert !Held(w.db, w.workers[l].delivery, w.workers[l].token);
  }

  lemma {:induction false} WatchedRun(w: World, acts: seq<Action>, l: nat, d: nat, stray: Option<nat>, m: nat)
    requires Watched(w, l, d, stray, m) && 0 < m && FencedRun(w, acts, m)
    ensures Watched(Run(w, acts, m), l, d, stray, m)
    decreases |acts|
  {
    if acts != [] {
      WatchedStep(w, acts[0], l, d, stray, m);
      WatchedRun(Step(w, acts[0], m), acts[1..], l, d, stray, m);
    }
  }

  lemma WatchedPromises(w: World, l: nat, d: nat, stray: Option<nat>, m: nat)
    requires Watched(w, l, d, stray, m)
    ensures Promise(w)
  {
    if Good(w, d, stray, m) {
      GoodPromises(w, d, stray, m);
    } else {
      var v := Leave(w, l);
      GoodPromises(v, d, stray, m);
      forall i: nat | i < |w.posts| ensures PostOk(w, i) { assert PostOk(v, i); }
      forall e: nat, part: nat ensures |NotFailed(w.db, e, part)| <= 1 + |UncertainRetries(w, e, part)| {
        assert UncertainRetries(w, e, part) == UncertainRetries(v, e, part);
      }
    }
  }

  lemma WatchedIsSafe(w: World, l: nat, d: nat, stray: Option<nat>, m: nat)
    requires Watched(w, l, d, stray, m) && 0 < m
    ensures Safe(w, m)
  {
    forall acts: seq<Action> | FencedRun(w, acts, m) ensures Promise(Run(w, acts, m)) {
      WatchedRun(w, acts, l, d, stray, m);
      WatchedPromises(Run(w, acts, m), l, d, stray, m);
    }
  }

  // ----- A recovery that saw an earlier part only misnames the response -----

  /** A session is about to recover a claim, and its update will be accepted. */
  ghost predicate Recovers(w: World, act: Action) {
    && act.DoRecover? && act.session in w.looks && w.looks[act.session].AtClaim?
    && RecoverCommit(w.db, w.looks[act.session].claim, act.channel, act.cutoff, act.at).Committed?
  }

  function MissedBy(db: Db, look: ClaimLook): Option<nat> {
    if look.active.Some? || look.delivery >= |db.deliveries| then None
    else ActiveAttempt(db, look.delivery, db.deliveries[look.delivery].nextPart)
  }

  /** The requeued row, whatever was in flight. */
  lemma Requeues(w: World, act: Action, m: nat)
    requires Recovers(w, act) && w.looks[act.session].claim.active.None?
    ensures var look := w.looks[act.session].claim;
      var r, p := w.db.deliveries[look.delivery], w.db.responses[w.db.deliveries[look.delivery].responseId];
      Step(w, act, m) == w.(looks := w.looks - {act.session},
        db := WithRow(w.db, look.delivery,
          r.(status := DeliveryStatus.Queued, availableAt := act.at, claimToken := None, claimedAt := None,
             completedAt := None, lastError := None),
          p.(status := WaitingStatus(look.part), lastError := None)))
  {
  }

  /** Right after the requeue: what is waiting, apart from the attempt that may be astray. */
  lemma RequeuedWaits(w: World, act: Action, m: nat, stray: Option<nat>, w': World)
    requires Sound(w, m) && Recovers(w, act) && w.looks[act.session].claim.active.None? && w' == Step(w, act, m)
    requires stray.Some? ==>
      InFlight(w.db, stray.value) && w.db.attempts[stray.value].delivery == w.looks[act.session].claim.delivery
    ensures var d := w.looks[act.session].claim.delivery;
      && LooksOk(w') && Resting(w', d) && Seen(w', d, stray) && w'.db.deliveries[d].status.Queued?
         && Fits(w'.db, d, stray)
  {
    var d := w.looks[act.session].claim.delivery;
    Requeues(w, act, m);
    StepKeepsLooks(w, act, m, w');
    assert RowOk(w.db, d);
  }

  /** The same recovery with a look at the present part. */
  function WithCurrentLook(w: World, act: Action): World
    requires Recovers(w, act)
  {
    var look := w.looks[act.session].claim;
    w.(looks := w.looks[act.session := AtClaim(look.(part := w.db.deliveries[look.delivery].nextPart))])
  }

  lemma CurrentLookIsFenced(w: World, act: Action, m: nat)
    requires Sound(w, m) && Recovers(w, act) && w.looks[act.session].claim.active.None?
    requires MissedBy(w.db, w.looks[act.session].claim).None?
    ensures Sound(WithCurrentLook(w, act), m) && FencedStep(WithCurrentLook(w, act), act)
      && Recovers(WithCurrentLook(w, act), act)
  {
    var u := WithCurrentLook(w, act);
    assert LookOk(w.db, w.looks[act.session].claim) && w.looks[act.session].claim.token in w.used;
    assert LooksOk(u);
    SoundLooks(w, u.looks, m);
  }

  lemma MisnamedMends(w: World, act: Action, m: nat)
    requires Recovers(w, act) && w.looks[act.session].claim.active.None? && Recovers(WithCurrentLook(w, act), act)
    requires w.looks[act.session].claim.part <= w.db.deliveries[w.looks[act.session].claim.delivery].nextPart
    ensures Mend(Step(w, act, m), w.looks[act.session].claim.delivery, None) == Step(WithCurrentLook(w, act), act, m)
  {
    var u, d := WithCurrentLook(w, act), w.looks[act.session].claim.delivery;
    Requeues(w, act, m);
    Requeues(u, act, m);
    assert u.looks - {act.session} == w.looks - {act.session};
    assert Mend(Step(w, act, m), d, None).db.responses == Step(u, act, m).db.responses;
  }

  lemma MisnamedRecovery(w: World, act: Action, m: nat)
    requires Sound(w, m) && 0 < m && Recovers(w, act) && w.looks[act.session].claim.active.None?
    requires MissedBy(w.db, w.looks[act.session].claim).None?
    ensures Off(Step(w, act, m), w.looks[act.session].claim.delivery, None, m)
  {
    CurrentLookIsFenced(w, act, m);
    StepKeeps(WithCurrentLook(w, act), act, m);
    assert LookOk(w.db, w.looks[act.session].claim);
    MisnamedMends(w, act, m);
    RequeuedWaits(w, act, m, None, Step(w, act, m));
  }

  // ----- A recovery that missed an attempt which will not be sent -----

  lemma AppendedRetries(w: World, v: World, x: ManualRetry, e: nat, part: nat)
    requires v.retries == w.retries + [x]
    ensures |Retries(v, e, part)| == |Retries(w, e, part)| + (if x.delivery == e && x.part == part then 1 else 0)
  {
    var n := |w.retries|;
    if x.delivery == e && x.part == part {
      assert Retries(v, e, part) == Retries(w, e, part) + {n};
    } else {
      assert Retries(v, e, part) == Retries(w, e, part);
    }
  }

  lemma AppendedUncertain(w: World, v: World, x: ManualRetry, e: nat, part: nat)
    requires v.retries == w.retries + [x] && !x.fromUncertain
    ensures UncertainRetries(v, e, part) == UncertainRetries(w, e, part)
  {
  }

  /** The order of the retries does not matter. */
  lemma FirstOrLast(w: World, v: World, x: ManualRetry, rest: seq<ManualRetry>, m: nat)
    requires Sound(w, m) && w.retries == rest + [x] && v == w.(retries := [x] + rest) && !x.fromUncertain
    ensures Sound(v, m)
  {
    var base := w.(retries := rest);
    forall e: nat, part: nat ensures EffectBudget(v, e, part) && AttemptBudget(v, e, part, m) {
      assert EffectBudget(w, e, part) && AttemptBudget(w, e, part, m);
      AppendedRetries(base, w, x, e, part);
      AppendedUncertain(base, w, x, e, part);
      ShiftedRetries(base, v, x, e, part);
    }
    forall i: nat | i < |v.posts| ensures PostOk(v, i) { assert PostOk(w, i); }
    forall k: nat | k in v.workers ensures PhaseOk(v, v.workers[k]) {
      assert PhaseOk(w, w.workers[k]);
      SamePhase(w, v, v.workers[k]);
    }
    Guests.MoreAttend(w, v);
  }

  /** A failed worker may as well have failed for another reason. */
  lemma Restaged(w: World, l: nat, stage: Stage, m: nat)
    requires Sound(w, m) && l in w.workers && w.workers[l].Busy? && w.workers[l].stage.Failing?
    requires stage.Failing? && !Posted(w, w.workers[l].attempt)
    ensures Sound(w.(workers := w.workers[l := w.workers[l].(stage := stage)]), m)
  {
    var y := w.workers[l].(stage := stage);
    var w' := w.(workers := w.workers[l := y]);
    assert !PostedWithEffect(w, y.attempt);
    assert PhaseOk(w, w.workers[l]) && PhaseOk(w, y);
    MoveKeeps(w, l, y, m);
    forall d: nat | d < |w'.db.deliveries| && w'.db.deliveries[d].claimToken.Some?
      ensures Holder(w', d, w'.db.deliveries[d].claimToken.value)
    {
      var token := w.db.deliveries[d].claimToken.value;
      assert Holder(w, d, token);
      var j: nat :| j in w.workers && w.workers[j].delivery == d && w.workers[j].token == token;
      assert w'.workers[j].delivery == d && w'.workers[j].token == token;
    }
  }

  /** The worker of the missed attempt has failed and holds the claim. */
  ghost predicate Failed(w: World, l: nat, d: nat, a: nat) {
    && l in w.workers && w.workers[l].Busy? && w.workers[l].stage.Failing? && w.workers[l].attempt == a
    && w.workers[l].delivery == d && Held(w.db, d, w.workers[l].token) && !Posted(w, a)
    && InFlight(w.db, a) && w.db.attempts[a].delivery == d && w.db.attempts[a].part == w.db.deliveries[d].nextPart
  }

  const GIVE_UP := Failing(BadValue)

  function GivenUp(w: World, l: nat): World
    requires l in w.workers && w.workers[l].Busy?
  {
    w.(workers := w.workers[l := w.workers[l].(stage := GIVE_UP)])
  }

  function Closed(l: nat): Action {
    DoRecordFailure(l, "given up", 0, 0)
  }

  /** Giving the attempt up closes it and fails the delivery. */
  function AfterClosing(w: World, l: nat, d: nat, a: nat): World
    requires d < |w.db.deliveries| && w.db.deliveries[d].responseId in w.db.responses && a < |w.db.attempts|
  {
    var r := w.db.deliveries[d];
    var p := w.db.responses[r.responseId];
    w.(workers := w.workers - {l},
       db := WithRow(w.db.(attempts := w.db.attempts[a := Dropped(w.db.attempts[a])]), d,
         r.(claimToken := None, claimedAt := None, lastError := Some("given up"), status := DeliveryStatus.Failed,
            completedAt := Some(0)),
         p.(status := ResponseStatus.Failed, lastError := Some("given up"))))
  }

  lemma ClosingIs(w: World, l: nat, d: nat, a: nat, m: nat)
    requires Failed(w, l, d, a) && RowOk(w.db, d)
    ensures Step(GivenUp(w, l), Closed(l), m) == AfterClosing(w, l, d, a)
  {
    var u := GivenUp(w, l);
    assert Held(u.db, d, u.workers[l].token);
    assert u.workers - {l} == w.workers - {l};
  }

  lemma ClosingIsSound(w: World, l: nat, d: nat, a: nat, m: nat)
    requires Sound(w, m) && 0 < m && Failed(w, l, d, a) && RowOk(w.db, d)
    ensures Sound(AfterClosing(w, l, d, a), m)
  {
    Restaged(w, l, GIVE_UP, m);
    ClosingIs(w, l, d, a, m);
    StepKeeps(GivenUp(w, l), Closed(l), m);
  }

  /** An operator requeues a failed delivery. */
  function AfterRetry(w: World, s: nat, d: nat, at: Time): World
    requires d < |w.db.deliveries| && w.db.deliveries[d].responseId in w.db.responses
  {
    var r := w.db.deliveries[d];
    var p := w.db.responses[r.responseId];
    w.(looks := w.looks - {s}, retries := w.retries + [ManualRetry(d, r.nextPart, false)],
       db := WithRow(w.db, d,
         r.(status := DeliveryStatus.Queued, availableAt := at, claimToken := None, claimedAt := None,
            completedAt := None, lastError := None),
         p.(status := WaitingStatus(r.nextPart), lastError := None)))
  }

  lemma RetryIsSound(w: World, s: nat, d: nat, at: Time, m: nat)
    requires Sound(w, m) && 0 < m && d < |w.db.deliveries| && w.db.deliveries[d].status.Failed? && RowOk(w.db, d)
    ensures Sound(AfterRetry(w, s, d, at), m)
  {
    var w1 := Step(w, DoLookRetry(s, d, false), m);
    StepKeeps(w, DoLookRetry(s, d, false), m);
    assert w1.looks - {s} == w.looks - {s};
    assert FencedStep(w1, DoRetry(s, at)) && Step(w1, DoRetry(s, at), m) == AfterRetry(w, s, d, at);
    StepKeeps(w1, DoRetry(s, at), m);
  }

  /** The mended state is one in which the attempt was given up and an operator retried the delivery. */
  lemma StrayMends(w: World, act: Action, l: nat, a: nat, m: nat)
    requires Recovers(w, act) && w.looks[act.session].claim.active.None?
    requires Failed(w, l, w.looks[act.session].claim.delivery, a)
    requires w.looks[act.session].claim.part <= w.db.deliveries[w.looks[act.session].claim.delivery].nextPart
    ensures var d := w.looks[act.session].claim.delivery;
      var v := AfterRetry(AfterClosing(w, l, d, a), act.session, d, act.at);
      Mend(Leave(Step(w, act, m), l), d, Some(a))
        == v.(retries := [ManualRetry(d, w.db.deliveries[d].nextPart, false)] + w.retries)
  {
    var d := w.looks[act.session].claim.delivery;
    Requeues(w, act, m);
    var w' := Mend(Leave(Step(w, act, m), l), d, Some(a));
    var v := AfterRetry(AfterClosing(w, l, d, a), act.session, d, act.at);
    assert w'.db.responses == v.db.responses;
    assert w'.db.deliveries == v.db.deliveries;
    assert w'.db.attempts == v.db.attempts;
  }

  lemma StrayIsMendable(w: World, act: Action, l: nat, a: nat, m: nat)
    requires Sound(w, m) && 0 < m && Recovers(w, act) && w.looks[act.session].claim.active.None?
    requires Failed(w, l, w.looks[act.session].claim.delivery, a)
    ensures Sound(Mend(Leave(Step(w, act, m), l), w.looks[act.session].claim.delivery, Some(a)), m)
  {
    var d := w.looks[act.session].claim.delivery;
    assert RowOk(w.db, d) && LookOk(w.db, w.looks[act.session].claim);
    ClosingIsSound(w, l, d, a, m);
    var w1 := AfterClosing(w, l, d, a);
    assert RowOk(w1.db, d);
    RetryIsSound(w1, act.session, d, act.at, m);
    StrayMends(w, act, l, a, m);
    var x := ManualRetry(d, w.db.deliveries[d].nextPart, false);
    var v := AfterRetry(w1, act.session, d, act.at);
    FirstOrLast(v, v.(retries := [x] + w.retries), x, w.retries, m);
  }

  /** After the recovery the attempt is astray, and its worker is a bystander. */
  lemma StrayRecovery(w: World, act: Action, l: nat, a: nat, m: nat)
    requires Sound(w, m) && 0 < m && Recovers(w, act) && w.looks[act.session].claim.active.None?
    requires Failed(w, l, w.looks[act.session].claim.delivery, a)
    ensures Watched(Step(w, act, m), l, w.looks[act.session].claim.delivery, Some(a), m)
  {
    var d, w' := w.looks[act.session].claim.delivery, Step(w, act, m);
    StrayIsMendable(w, act, l, a, m);
    RequeuedWaits(w, act, m, Some(a), w');
    Requeues(w, act, m);
    LeavesWaiting(w', d, a, l);
    GoesAstray(w, d, a, l, m, w');
    ClaimIsOver(w, d, l, m, w');
  }

  lemma LeavesWaiting(w: World, d: nat, a: nat, l: nat)
    requires LooksOk(w) && Resting(w, d) && Seen(w, d, Some(a)) && Fits(w.db, d, Some(a))
    ensures var v := Leave(w, l); LooksOk(v) && Resting(v, d) && Seen(v, d, Some(a)) && Fits(v.db, d, Some(a))
  {
  }

  lemma GoesAstray(w: World, d: nat, a: nat, l: nat, m: nat, w': World)
    requires Sound(w, m) && Failed(w, l, d, a) && w'.db.attempts == w.db.attempts && w'.workers == w.workers
      && w'.posts == w.posts
    requires d < |w'.db.deliveries| && w'.db.deliveries[d].nextPart == w.db.deliveries[d].nextPart
    ensures Astray(Leave(w', l), d, a)
  {
    var v := Leave(w', l);
    assert InFlightOk(w.db, a) && !Posted(v, a);
    forall k: nat | k in v.workers ensures v.workers[k].Busy? ==> v.workers[k].attempt != a {
      assert Apart(w.workers[k], w.workers[l]);
    }
    forall k: nat | k in v.workers && DrawsAt(v.workers[k], d, v.db.attempts[a].part)
      ensures v.workers[k].number <= v.db.attempts[a].number
    {
      DrewBefore(w, d, a, k);
    }
  }

  lemma DrewBefore(w: World, d: nat, a: nat, k: nat)
    requires DbInv(w.db) && WorkersOk(w) && InFlight(w.db, a) && w.db.attempts[a].delivery == d
    requires k in w.workers && DrawsAt(w.workers[k], d, w.db.attempts[a].part)
    ensures w.workers[k].number <= w.db.attempts[a].number
  {
    var s := w.db.attempts;
    assert PhaseOk(w, w.workers[k]) && InFlightOk(w.db, a);
    SameParts(s[..a + 1], s, d, s[a].part, |s|);
    SameCount(s[..a + 1], s, d, s[a].part, a + 1);
    assert !ClearAt(w.db, d, s[a].part);
  }

  lemma ClaimIsOver(w: World, d: nat, l: nat, m: nat, w': World)
    requires Sound(w, m) && l in w.workers && w.workers[l].delivery == d && w'.used == w.used
    requires |w'.db.deliveries| == |w.db.deliveries| && d < |w.db.deliveries| && !w'.db.deliveries[d].status.Delivering?
    requires forall e: nat :: e < |w.db.deliveries| && e != d ==> w'.db.deliveries[e] == w.db.deliveries[e]
    ensures Ended(w', w.workers[l].token)
  {
    var token := w.workers[l].token;
    assert PhaseOk(w, w.workers[l]);
    forall e: nat ensures !Held(w'.db, e, token) {
      if e != d && Held(w.db, e, token) { Guests.HeldWhereItsWorkerIs(w, l, e, m); }
    }
  }

  // ----- A recovery that missed an attempt which was or will be sent -----

  /** The next claim takes up an attempt that was sent already, and sends it again. */
  lemma NextClaimResends(w: World, d: nat, part: nat, a: nat, m: nat) returns (acts: seq<Action>)
    requires d < |w.db.deliveries| && w.db.deliveries[d].status.Queued? && w.db.deliveries[d].nextPart == part
    requires w.db.deliveries[d].conversationId != "" && w.db.deliveries[d].responseId in w.db.responses
      && Ready(w.db, d)
    requires ActiveAttempt(w.db, d, part) == Some(a) && Posted(w, a)
    ensures FencedRun(w, acts, m) && !Promise(Run(w, acts, m))
  {
    var token := UnusedToken(w.used);
    var k := UnusedNumber(w.workers.Keys);
    assert k !in w.workers;
    var r := w.db.deliveries[d];
    var act := DoClaim(k, d, r.channel, token, r.availableAt);
    var w1 := Step(w, act, m);
    assert w1.workers[k] == Looping(d, token, part) && Held(w1.db, d, token) && w1.db.attempts == w.db.attempts;
    SameActive(w.db, w1.db, d, part, |w.db.attempts|);
    var w2 := Step(w1, DoStart(k), m);
    assert w2 == TakeUp(w1, k, w1.workers[k], a);
    Guests.SamePosts(w, w2, a);
    var rest := Guests.SecondPost(w2, k, d, a, m);
    rest := Before(w1, DoStart(k), rest, m);
    acts := Before(w, act, rest, m);
  }

  /** The missed attempt was not sent, and its worker has failed before it could send it. */
  ghost predicate Stranded(w: World, a: nat) {
    && !Posted(w, a)
    && (exists l: nat ::
          l in w.workers && w.workers[l].Busy? && w.workers[l].attempt == a && w.workers[l].stage.Failing?)
  }

  lemma MissedIsSentTwice(w: World, act: Action, a: nat, m: nat) returns (acts: seq<Action>)
    requires Sound(w, m) && Recovers(w, act) && MissedBy(w.db, w.looks[act.session].claim) == Some(a) && !Stranded(w, a)
    ensures FencedRun(Step(w, act, m), acts, m) && !Promise(Run(Step(w, act, m), acts, m))
  {
    var look := w.looks[act.session].claim;
    var d, w' := look.delivery, Step(w, act, m);
    var part := w.db.deliveries[d].nextPart;
    Requeues(w, act, m);
    SameActive(w.db, w'.db, d, part, |w.db.attempts|);
    var l := Guests.CarrierOf(w, d, part, a, m);
    assert RowOk(w.db, d) && PhaseOk(w, w.workers[l]);
    if Posted(w, a) {
      Guests.SamePosts(w, w', a);
      acts := NextClaimResends(w', d, part, a, m);
    } else {
      assert w.workers[l].stage.Sending?;
      acts := NextClaimSharesOrphan(w', l, d, part, a, m);
    }
  }

  lemma StrandedWorker(w: World, d: nat, a: nat, m: nat) returns (l: nat)
    requires Sound(w, m) && d < |w.db.deliveries| && ActiveAttempt(w.db, d, w.db.deliveries[d].nextPart) == Some(a)
      && Stranded(w, a)
    ensures Failed(w, l, d, a)
  {
    l := Guests.CarrierOf(w, d, w.db.deliveries[d].nextPart, a, m);
    var j: nat :| j in w.workers && w.workers[j].Busy? && w.workers[j].attempt == a && w.workers[j].stage.Failing?;
    assert j == l || Apart(w.workers[j], w.workers[l]);
  }

  /**
   A recovery that commits is safe for all that can follow exactly when it missed no attempt in flight, or one that was
   not sent and whose worker has failed. An earlier part in its look does no harm to what is sent.
   */
  lemma RecoveryIsSafeIff(w: World, act: Action, m: nat)
    requires Sound(w, m) && 0 < m && Recovers(w, act)
    ensures var missed := MissedBy(w.db, w.looks[act.session].claim);
      Safe(Step(w, act, m), m) <==> (missed.Some? ==> Stranded(w, missed.value))
  {
    var look := w.looks[act.session].claim;
    var missed, w' := MissedBy(w.db, look), Step(w, act, m);
    if missed.Some? && !Stranded(w, missed.value) {
      var acts := MissedIsSentTwice(w, act, missed.value, m);
    } else if missed.Some? {
      var l := StrandedWorker(w, look.delivery, missed.value, m);
      StrayRecovery(w, act, l, missed.value, m);
      WatchedIsSafe(w', l, look.delivery, missed, m);
    } else if look.active.None? {
      MisnamedRecovery(w, act, m);
      WatchedIsSafe(w', 0, look.delivery, None, m);
    } else {
      StepKeeps(w, act, m);
      WatchedIsSafe(w', 0, look.delivery, None, m);
    }
  }

  // ----- A manual retry that saw an earlier part -----

  ghost predicate Requeued(w: World, act: Action) {
    && act.DoRetry? && act.session in w.looks && w.looks[act.session].AtStop?
    && RetryCommit(w.db, w.looks[act.session].stop, act.at).Committed?
  }

  function WithCurrentStop(w: World, act: Action): World
    requires Requeued(w, act)
  {
    var look := w.looks[act.session].stop;
    w.(looks := w.looks[act.session := AtStop(look.(part := w.db.deliveries[look.delivery].nextPart))])
  }

  lemma CurrentStopIsFenced(w: World, act: Action, m: nat)
    requires Sound(w, m) && Requeued(w, act)
    ensures Sound(WithCurrentStop(w, act), m) && FencedStep(WithCurrentStop(w, act), act)
      && Requeued(WithCurrentStop(w, act), act)
  {
    var u := WithCurrentStop(w, act);
    assert StopOk(w.db, w.looks[act.session].stop);
    assert LooksOk(u);
    SoundLooks(w, u.looks, m);
  }

  lemma RetryMisnames(w: World, act: Action, m: nat)
    requires Requeued(w, act) && Requeued(WithCurrentStop(w, act), act)
    requires w.looks[act.session].stop.part <= w.db.deliveries[w.looks[act.session].stop.delivery].nextPart
    ensures Mend(Step(w, act, m), w.looks[act.session].stop.delivery, None) == Step(WithCurrentStop(w, act), act, m)
  {
    var u, d := WithCurrentStop(w, act), w.looks[act.session].stop.delivery;
    assert u.looks - {act.session} == w.looks - {act.session};
    assert Mend(Step(w, act, m), d, None).db.responses == Step(u, act, m).db.responses;
  }

  lemma RetriedWaits(w: World, act: Action, m: nat)
    requires Sound(w, m) && Requeued(w, act)
    ensures Waits(Step(w, act, m), w.looks[act.session].stop.delivery, None)
  {
    var d, w' := w.looks[act.session].stop.delivery, Step(w, act, m);
    StepKeepsLooks(w, act, m, w');
    assert RowOk(w.db, d);
  }

  /**
   A manual retry that commits is safe for all that can follow, whatever part it saw: only the response is misnamed.
   */
  lemma RetryIsSafe(w: World, act: Action, m: nat)
    requires Sound(w, m) && 0 < m && Requeued(w, act)
    ensures Safe(Step(w, act, m), m)
  {
    var d := w.looks[act.session].stop.delivery;
    CurrentStopIsFenced(w, act, m);
    StepKeeps(WithCurrentStop(w, act), act, m);
    assert StopOk(w.db, w.looks[act.session].stop);
    RetryMisnames(w, act, m);
    RetriedWaits(w, act, m);
    WatchedIsSafe(Step(w, act, m), 0, d, None, m);
  }
}
