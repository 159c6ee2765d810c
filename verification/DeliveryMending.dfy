/**
 A recovery that commits although it missed an attempt in flight. The delivery is queued again and the attempt is
 astray: the next claim takes it up. To see what can follow, the state is compared with a mended one, in which the
 attempt counts as failed, an operator has retried the delivery, and the response follows it: every step does the same
 to both.
 */
module DeliveryMending {
  import opened Basics
  import opened DeliveryOutbox
  import opened DeliveryInvariant
  import opened ChannelSend
  import opened DeliveryProtocol
  import opened DeliverySafety
  import opened DeliveryTheorems

  function Dropped(t: Attempt): Attempt {
    t.(status := AttemptStatus.Failed, error := Some("given up"), completedAt := Some(0))
  }

  function Right(r: Delivery, p: Response): Response {
    if r.status.Queued? && r.nextPart > 0 then p.(status := ResponseStatus.Delivering) else p
  }

  predicate Fits(db: Db, d: nat, stray: Option<nat>) {
    && d < |db.deliveries| && db.deliveries[d].responseId in db.responses
    && (stray.Some? ==> stray.value < |db.attempts| && db.attempts[stray.value].delivery == d)
    && (forall e: nat :: e < |db.deliveries| && e != d ==> db.deliveries[e].responseId != db.deliveries[d].responseId)
  }

  function MendedAttempts(s: seq<Attempt>, stray: Option<nat>): seq<Attempt> {
    if stray.Some? && stray.value < |s| then s[stray.value := Dropped(s[stray.value])] else s
  }

  /** The tables as they would be if the stray attempt had failed and the response followed delivery `d`. */
  function MendDb(db: Db, d: nat, stray: Option<nat>): Db {
    if d >= |db.deliveries| || db.deliveries[d].responseId !in db.responses then db
    else
      var r := db.deliveries[d];
      db.(attempts := MendedAttempts(db.attempts, stray),
          responses := db.responses[r.responseId := Right(r, db.responses[r.responseId])])
  }

  function MendTxn(t: Txn, d: nat, stray: Option<nat>): Txn {
    match t case Committed(db) => Committed(MendDb(db, d, stray)) case Refused(_) => t
  }

  function MendedRetries(s: seq<ManualRetry>, db: Db, d: nat, stray: Option<nat>): seq<ManualRetry> {
    if stray.Some? && stray.value < |db.attempts| then [ManualRetry(d, db.attempts[stray.value].part, false)] + s else s
  }

  function Mend(w: World, d: nat, stray: Option<nat>): World {
    w.(db := MendDb(w.db, d, stray), retries := MendedRetries(w.retries, w.db, d, stray))
  }

  // ----- Transactions on other deliveries do the same to both -----

  lemma MendedActive(db: Db, d: nat, stray: Option<nat>, e: nat, part: nat)
    requires Fits(db, d, stray) && e != d
    ensures ActiveAttempt(MendDb(db, d, stray), e, part) == ActiveAttempt(db, e, part)
  {
    SameActive(db, MendDb(db, d, stray), e, part, |db.attempts|);
  }

  lemma {:induction false} MendedMax(db: Db, d: nat, stray: Option<nat>, e: nat, part: nat, n: nat)
    requires Fits(db, d, stray) && n <= |db.attempts|
    ensures MaxNumberBelow(MendDb(db, d, stray), e, part, n) == MaxNumberBelow(db, e, part, n)
  {
    if n > 0 { MendedMax(db, d, stray, e, part, n - 1); }
  }

  lemma MendedNumber(db: Db, d: nat, stray: Option<nat>, e: nat, part: nat, number: nat)
    requires Fits(db, d, stray)
    ensures NumberTaken(MendDb(db, d, stray), e, part, number) <==> NumberTaken(db, e, part, number)
  {
    var db' := MendDb(db, d, stray);
    assert forall a: nat :: a < |db.attempts| ==>
      db'.attempts[a].delivery == db.attempts[a].delivery && db'.attempts[a].part == db.attempts[a].part
      && db'.attempts[a].number == db.attempts[a].number;
  }

  /** The response of the queued delivery can be claimed. */
  predicate Ready(db: Db, d: nat)
    requires d < |db.deliveries| && db.deliveries[d].responseId in db.responses
  {
    var p := db.responses[db.deliveries[d].responseId];
    db.deliveries[d].status.Queued? ==> p.status.Generated? || p.status.Delivering?
  }

  lemma ClaimMends(db: Db, d: nat, stray: Option<nat>, e: nat, channel: string, token: Token, at: Time)
    requires Fits(db, d, stray) && Ready(db, d)
    ensures Claim(MendDb(db, d, stray), e, channel, token, at) == MendTxn(Claim(db, e, channel, token, at), d, stray)
  {
    var t, t' := MendTxn(Claim(db, e, channel, token, at), d, stray),
      Claim(MendDb(db, d, stray), e, channel, token, at);
    if t.Committed? { assert t.db.responses == t'.db.responses; }
  }

  lemma EnqueueMends(db: Db, d: nat, stray: Option<nat>, rid: string, n: nat, channel: string, account: string,
                     conversation: string, at: Time)
    requires Fits(db, d, stray)
    ensures Enqueue(MendDb(db, d, stray), rid, n, channel, account, conversation, at)
      == MendTxn(Enqueue(db, rid, n, channel, account, conversation, at), d, stray)
  {
    var t := MendTxn(Enqueue(db, rid, n, channel, account, conversation, at), d, stray);
    var t' := Enqueue(MendDb(db, d, stray), rid, n, channel, account, conversation, at);
    if t.Committed? { assert t.db.responses == t'.db.responses; }
  }

  lemma RecoverMends(db: Db, d: nat, stray: Option<nat>, look: ClaimLook, channel: string, cutoff: Time, at: Time)
    requires Fits(db, d, stray) && LookOk(db, look) && look.delivery != d
    ensures RecoverCommit(MendDb(db, d, stray), look, channel, cutoff, at)
      == MendTxn(RecoverCommit(db, look, channel, cutoff, at), d, stray)
  {
    var t := MendTxn(RecoverCommit(db, look, channel, cutoff, at), d, stray);
    var t' := RecoverCommit(MendDb(db, d, stray), look, channel, cutoff, at);
    if t.Committed? {
      assert t.db.responses == t'.db.responses;
      assert t.db.attempts == t'.db.attempts;
    }
  }

  lemma RetryMends(db: Db, d: nat, stray: Option<nat>, look: StopLook, at: Time)
    requires Fits(db, d, stray) && Ready(db, d)
    requires look.delivery == d ==>
      db.deliveries[d].status.Queued? || (db.deliveries[d].status.Delivering?
                                          && db.responses[db.deliveries[d].responseId].status.Delivering?)
    ensures RetryCommit(MendDb(db, d, stray), look, at) == MendTxn(RetryCommit(db, look, at), d, stray)
    ensures look.delivery == d ==> RetryCommit(db, look, at).Refused?
  {
    var t, t' := MendTxn(RetryCommit(db, look, at), d, stray), RetryCommit(MendDb(db, d, stray), look, at);
    if t.Committed? { assert t.db.responses == t'.db.responses; }
  }

  lemma MarkMends(db: Db, d: nat, stray: Option<nat>, e: nat, token: Token, a: nat, part: nat, payload: string,
                  at: Time)
    requires Fits(db, d, stray) && (e == d ==> !Held(db, d, token))
    ensures MarkPartDelivered(MendDb(db, d, stray), e, token, a, part, payload, at)
      == MendTxn(MarkPartDelivered(db, e, token, a, part, payload, at), d, stray)
  {
    var t := MendTxn(MarkPartDelivered(db, e, token, a, part, payload, at), d, stray);
    var t' := MarkPartDelivered(MendDb(db, d, stray), e, token, a, part, payload, at);
    if t.Committed? {
      assert t.db.responses == t'.db.responses;
      assert t.db.attempts == t'.db.attempts;
    }
  }

  lemma FinishMends(db: Db, d: nat, stray: Option<nat>, e: nat, token: Token, a: nat, how: Closing, code: string,
                    at: Time)
    requires Fits(db, d, stray) && (e == d ==> !Held(db, d, token))
    ensures FinishAttempt(MendDb(db, d, stray), e, token, a, how, code, at)
      == MendTxn(FinishAttempt(db, e, token, a, how, code, at), d, stray)
  {
    var t := MendTxn(FinishAttempt(db, e, token, a, how, code, at), d, stray);
    var t' := FinishAttempt(MendDb(db, d, stray), e, token, a, how, code, at);
    if t.Committed? {
      assert t.db.responses == t'.db.responses;
      assert t.db.attempts == t'.db.attempts;
    }
  }

  lemma StartMends(db: Db, d: nat, stray: Option<nat>, e: nat, token: Token, part: nat)
    requires Fits(db, d, stray) && (e == d ==> !Held(db, d, token))
    ensures StartCheck(MendDb(db, d, stray), e, token, part) == StartCheck(db, e, token, part)
  {
    if e != d { MendedActive(db, d, stray, e, part); }
    MendedMax(db, d, stray, e, part, |db.attempts|);
  }

  // ----- Steps do the same to both -----

  /** Delivery `d` is queued, or claimed by a worker that has not started. */
  ghost predicate Resting(w: World, d: nat) {
    && d < |w.db.deliveries| && w.db.deliveries[d].responseId in w.db.responses && Ready(w.db, d)
    && (|| w.db.deliveries[d].status.Queued?
        || (w.db.deliveries[d].status.Delivering? && w.db.responses[w.db.deliveries[d].responseId].status.Delivering?))
    && (forall k: nat :: k in w.workers && w.workers[k].delivery == d && Held(w.db, d, w.workers[k].token) ==>
          w.workers[k].Looping?)
  }

  /** The step does the same to the mended state, reads of sessions aside. */
  ghost predicate Mirrors(w: World, act: Action, d: nat, stray: Option<nat>, m: nat) {
    Step(Mend(w, d, stray), act, m).(looks := Step(w, act, m).looks) == Mend(Step(w, act, m), d, stray)
  }

  /** The steps that do not: the claim is recovered, or its worker starts. */
  predicate Parts(w: World, act: Action, d: nat) {
    match act
    case DoStart(k) =>
      k in w.workers && w.workers[k].Looping? && w.workers[k].delivery == d && Held(w.db, d, w.workers[k].token)
    case DoRecover(s, channel, cutoff, at) =>
      && s in w.looks && w.looks[s].AtClaim? && w.looks[s].claim.delivery == d
      && RecoverCommit(w.db, w.looks[s].claim, channel, cutoff, at).Committed?
    case _ => false
  }

  predicate LooksAt(db: Db, look: ClaimLook, d: nat) {
    look.delivery == d && Held(db, d, look.token)
  }

  /** Whoever looked at the present claim of `d` saw the stray attempt, which is in flight. */
  ghost predicate Seen(w: World, d: nat, stray: Option<nat>) {
    && (stray.Some? ==> InFlight(w.db, stray.value))
    && (forall s: nat :: s in w.looks && w.looks[s].AtClaim? && LooksAt(w.db, w.looks[s].claim, d) ==>
          stray.Some? && w.looks[s].claim.active == stray)
  }

  lemma SessionMirrors(w: World, act: Action, d: nat, stray: Option<nat>, m: nat)
    requires Fits(w.db, d, stray) && Resting(w, d) && LooksOk(w) && Seen(w, d, stray) && OnTables(act)
      && !Parts(w, act, d)
    ensures Mirrors(w, act, d, stray, m)
  {
    if act.DoEnqueue? {
      EnqueueMirrors(w, act, d, stray, m);
    } else if act.DoClaim? {
      ClaimMirrors(w, act, d, stray, m);
    } else if act.DoRecover? {
      RecoverMirrors(w, act, d, stray, m);
    } else if act.DoRetry? {
      RetryMirrors(w, act, d, stray, m);
    }
  }

  lemma EnqueueMirrors(w: World, act: Action, d: nat, stray: Option<nat>, m: nat)
    requires Fits(w.db, d, stray) && act.DoEnqueue?
    ensures Mirrors(w, act, d, stray, m)
  {
    EnqueueMends(w.db, d, stray, act.responseId, act.partCount, act.channel, act.accountId, act.conversationId, act.at);
  }

  lemma ClaimMirrors(w: World, act: Action, d: nat, stray: Option<nat>, m: nat)
    requires Fits(w.db, d, stray) && Ready(w.db, d) && act.DoClaim?
    ensures Mirrors(w, act, d, stray, m)
  {
    ClaimMends(w.db, d, stray, act.delivery, act.channel, act.token, act.at);
  }

  lemma RetryMirrors(w: World, act: Action, d: nat, stray: Option<nat>, m: nat)
    requires Fits(w.db, d, stray) && Resting(w, d) && act.DoRetry?
    ensures Mirrors(w, act, d, stray, m)
  {
    if act.session in w.looks && w.looks[act.session].AtStop? {
      var look := w.looks[act.session].stop;
      RetryMends(w.db, d, stray, look, act.at);
      if RetryCommit(w.db, look, act.at).Committed? {
        var r := w.db.deliveries[look.delivery];
        var added := ManualRetry(look.delivery, r.nextPart, r.status.Uncertain?);
        assert MendedRetries(w.retries + [added], w.db, d, stray) == MendedRetries(w.retries, w.db, d, stray) + [added];
      }
    }
  }

  lemma RecoverMirrors(w: World, act: Action, d: nat, stray: Option<nat>, m: nat)
    requires Fits(w.db, d, stray) && Resting(w, d) && LooksOk(w) && Seen(w, d, stray) && act.DoRecover?
      && !Parts(w, act, d)
    ensures Mirrors(w, act, d, stray, m)
  {
    if act.session in w.looks && w.looks[act.session].AtClaim? {
      var look := w.looks[act.session].claim;
      if look.delivery != d {
        RecoverMends(w.db, d, stray, look, act.channel, act.cutoff, act.at);
      } else {
        RefusedInBoth(w.db, d, stray, look, act.channel, act.cutoff, act.at);
      }
    }
  }

  lemma RefusedInBoth(db: Db, d: nat, stray: Option<nat>, look: ClaimLook, channel: string, cutoff: Time, at: Time)
    requires Fits(db, d, stray) && look.delivery == d && RecoverCommit(db, look, channel, cutoff, at).Refused?
    requires Held(db, d, look.token) ==>
      db.responses[db.deliveries[d].responseId].status.Delivering? && look.active.Some? && look.active == stray
    requires stray.Some? ==> InFlight(db, stray.value)
    ensures RecoverCommit(MendDb(db, d, stray), look, channel, cutoff, at).Refused?
  {
  }

  /** A worker that has not started, at another delivery or without its claim. */
  lemma StartMirrors(w: World, k: nat, d: nat, stray: Option<nat>, m: nat)
    requires Fits(w.db, d, stray) && Resting(w, d) && !Parts(w, DoStart(k), d)
    ensures Mirrors(w, DoStart(k), d, stray, m)
  {
    if k in w.workers && w.workers[k].Looping? {
      var x := w.workers[k];
      StartMends(w.db, d, stray, x.delivery, x.token, x.part);
      match StartCheck(w.db, x.delivery, x.token, x.part)
      case Resume(a) => assert MendDb(w.db, d, stray).attempts[a].number == w.db.attempts[a].number;
      case _ =>
    }
  }

  lemma InsertMends(db: Db, d: nat, stray: Option<nat>, e: nat, part: nat, number: nat)
    requires Fits(db, d, stray)
    ensures InsertAttempt(MendDb(db, d, stray), e, part, number) == MendDb(InsertAttempt(db, e, part, number), d, stray)
  {
    var db', db'' := InsertAttempt(MendDb(db, d, stray), e, part, number),
      MendDb(InsertAttempt(db, e, part, number), d, stray);
    assert db'.attempts == db''.attempts;
  }

  /** An insert at `d` finds its number taken and nothing in flight at its part, or it is elsewhere. */
  lemma InsertMirrors(w: World, k: nat, d: nat, stray: Option<nat>, m: nat)
    requires Fits(w.db, d, stray) && Resting(w, d) && FencedStep(w, DoInsert(k))
    ensures Mirrors(w, DoInsert(k), d, stray, m)
  {
    if k in w.workers && w.workers[k].Starting? {
      var x := w.workers[k];
      MendedNumber(w.db, d, stray, x.delivery, x.part, x.number);
      InsertMends(w.db, d, stray, x.delivery, x.part, x.number);
      if x.delivery != d {
        MendedActive(w.db, d, stray, x.delivery, x.part);
      } else {
        NothingInFlight(w.db, d, stray, x.part);
      }
    }
  }

  lemma NothingInFlight(db: Db, d: nat, stray: Option<nat>, part: nat)
    requires Fits(db, d, stray)
    ensures ActiveAttempt(db, d, part).None? ==> ActiveAttempt(MendDb(db, d, stray), d, part).None?
  {
    var a := ActiveAttempt(MendDb(db, d, stray), d, part);
    assert a.Some? ==> InFlight(db, a.value);
  }

  /** What the worker makes of its receipt transaction. */
  function Marked(w: World, k: nat, x: Phase, t: Txn, report: CommitReport): World
    requires x.Busy?
  {
    var unsure := w.workers[k := x.(stage := Unsure)];
    if t.Refused? || report.LostAndRaised? then w.(workers := unsure)
    else if report.LandedButRaised? then w.(db := t.db, workers := unsure)
    else if x.delivery < |t.db.deliveries| && t.db.deliveries[x.delivery].status.Delivering?
    then w.(db := t.db, workers := w.workers[k := Looping(x.delivery, x.token, x.part + 1)])
    else Leave(w.(db := t.db), k)
  }

  lemma MarkIs(w: World, act: Action, m: nat)
    requires act.DoMark? && act.worker in w.workers && w.workers[act.worker].Busy?
      && w.workers[act.worker].stage.Accepted?
    ensures var x := w.workers[act.worker];
      Step(w, act, m) == Marked(w, act.worker, x,
        MarkPartDelivered(w.db, x.delivery, x.token, x.attempt, x.part, act.payload, act.at), act.report)
  {
  }

  lemma MarkedMends(w: World, k: nat, x: Phase, t: Txn, report: CommitReport, d: nat, stray: Option<nat>)
    requires x.Busy? && Fits(w.db, d, stray) && (t.Committed? ==> |t.db.attempts| == |w.db.attempts|)
    requires t.Committed? ==> forall b: nat :: b < |w.db.attempts| ==> t.db.attempts[b].part == w.db.attempts[b].part
    ensures Mend(Marked(w, k, x, t, report), d, stray) == Marked(Mend(w, d, stray), k, x, MendTxn(t, d, stray), report)
  {
  }

  lemma MarkMirrors(w: World, act: Action, d: nat, stray: Option<nat>, m: nat)
    requires Fits(w.db, d, stray) && Resting(w, d) && act.DoMark?
    ensures Mirrors(w, act, d, stray, m)
  {
    if act.worker in w.workers && w.workers[act.worker].Busy? && w.workers[act.worker].stage.Accepted? {
      var x := w.workers[act.worker];
      MarkMends(w.db, d, stray, x.delivery, x.token, x.attempt, x.part, act.payload, act.at);
      MarkKeepsParts(w.db, x.delivery, x.token, x.attempt, x.part, act.payload, act.at);
      MarkIs(w, act, m);
      MarkIs(Mend(w, d, stray), act, m);
      var t := MarkPartDelivered(w.db, x.delivery, x.token, x.attempt, x.part, act.payload, act.at);
      MarkedMends(w, act.worker, x, t, act.report, d, stray);
      assert Step(w, act, m).looks == w.looks;
    }
  }

  lemma MarkKeepsParts(db: Db, d: nat, token: Token, a: nat, part: nat, payload: string, at: Time)
    ensures var t := MarkPartDelivered(db, d, token, a, part, payload, at);
      t.Committed? ==>
        && |t.db.attempts| == |db.attempts|
           && (forall b: nat :: b < |db.attempts| ==> t.db.attempts[b].part == db.attempts[b].part)
        && |t.db.deliveries| == |db.deliveries| && d < |db.deliveries|
  {
  }

  lemma FailureMirrors(w: World, act: Action, d: nat, stray: Option<nat>, m: nat)
    requires Fits(w.db, d, stray) && Resting(w, d) && act.DoRecordFailure?
    ensures Mirrors(w, act, d, stray, m)
  {
    if act.worker in w.workers && w.workers[act.worker].Busy? && w.workers[act.worker].stage.Failing? {
      var x := w.workers[act.worker];
      var how := ClosingFor(x.stage.error, x.number, m, act.retryAt);
      FinishMends(w.db, d, stray, x.delivery, x.token, x.attempt, how, act.code, act.at);
      FinishKeepsParts(w.db, x.delivery, x.token, x.attempt, how, act.code, act.at);
    }
  }

  lemma FinishKeepsParts(db: Db, d: nat, token: Token, a: nat, how: Closing, code: string, at: Time)
    ensures var t := FinishAttempt(db, d, token, a, how, code, at);
      t.Committed? ==>
        && |t.db.attempts| == |db.attempts|
           && (forall b: nat :: b < |db.attempts| ==> t.db.attempts[b].part == db.attempts[b].part)
  {
  }

  lemma PosterMirrors(w: World, act: Action, d: nat, stray: Option<nat>, m: nat)
    requires Fits(w.db, d, stray) && (act.DoPreSendFailure? || act.DoSend? || act.DoResolve?)
    ensures Mirrors(w, act, d, stray, m)
  {
  }

  lemma StepMirrors(w: World, act: Action, d: nat, stray: Option<nat>, m: nat)
    requires Fits(w.db, d, stray) && Resting(w, d) && LooksOk(w) && Seen(w, d, stray) && FencedStep(w, act)
      && !Parts(w, act, d)
    ensures Mirrors(w, act, d, stray, m)
  {
    if OnTables(act) {
      SessionMirrors(w, act, d, stray, m);
    } else if act.DoStart? {
      StartMirrors(w, act.worker, d, stray, m);
    } else if act.DoInsert? {
      InsertMirrors(w, act.worker, d, stray, m);
    } else if act.DoMark? {
      MarkMirrors(w, act, d, stray, m);
    } else if act.DoRecordFailure? {
      FailureMirrors(w, act, d, stray, m);
    } else {
      PosterMirrors(w, act, d, stray, m);
    }
  }

  // ----- The fence is the same for both -----

  lemma RecoveryFence(w: World, act: Action, d: nat, stray: Option<nat>)
    requires Fits(w.db, d, stray) && Resting(w, d) && LooksOk(w) && Seen(w, d, stray) && !Parts(w, act, d)
    requires act.DoRecover? && FencedStep(w, act)
    ensures FencedStep(Mend(w, d, stray), act)
  {
    if act.session in w.looks && w.looks[act.session].AtClaim? {
      var look := w.looks[act.session].claim;
      if look.delivery != d {
        RecoverMends(w.db, d, stray, look, act.channel, act.cutoff, act.at);
        if look.delivery < |w.db.deliveries| {
          MendedActive(w.db, d, stray, look.delivery, w.db.deliveries[look.delivery].nextPart);
        }
      } else {
        RefusedInBoth(w.db, d, stray, look, act.channel, act.cutoff, act.at);
      }
    }
  }

  lemma InsertFence(w: World, k: nat, d: nat, stray: Option<nat>)
    requires Fits(w.db, d, stray) && Resting(w, d) && FencedStep(w, DoInsert(k))
    ensures FencedStep(Mend(w, d, stray), DoInsert(k))
  {
    if k in w.workers && w.workers[k].Starting? {
      var x := w.workers[k];
      MendedNumber(w.db, d, stray, x.delivery, x.part, x.number);
      if x.delivery != d {
        MendedActive(w.db, d, stray, x.delivery, x.part);
      } else {
        NothingInFlight(w.db, d, stray, x.part);
      }
    }
  }

  lemma FenceMends(w: World, act: Action, d: nat, stray: Option<nat>)
    requires Fits(w.db, d, stray) && Resting(w, d) && LooksOk(w) && Seen(w, d, stray) && FencedStep(w, act)
      && !Parts(w, act, d)
    ensures FencedStep(Mend(w, d, stray), act)
  {
    match act
    case DoInsert(k) => InsertFence(w, k, d, stray);
    case DoRecover(s, channel, cutoff, at) => RecoveryFence(w, act, d, stray);
    case DoRetry(s, at) => if s in w.looks && w.looks[s].AtStop? { RetryMends(w.db, d, stray, w.looks[s].stop, at); }
    case _ =>
  }

  // ----- What a step leaves alone -----

  /** The row of `d` and its response are as before, or `d` was claimed. */
  ghost predicate RowStays(w: World, act: Action, d: nat, w': World) {
    && d < |w.db.deliveries| && d < |w'.db.deliveries|
    && var r := w.db.deliveries[d];
    && r.responseId in w.db.responses && r.responseId in w'.db.responses
    && (|| (w'.db.deliveries[d] == r && w'.db.responses[r.responseId] == w.db.responses[r.responseId])
        || (act.DoClaim? && act.delivery == d && r.status.Queued? && act.worker !in w.workers && act.token !in w.used
            && w'.workers == w.workers[act.worker := Looping(d, act.token, r.nextPart)]
            && w'.db.deliveries[d].status.Delivering? && w'.db.deliveries[d].claimToken == Some(act.token)
            && w'.db.deliveries[d].nextPart == r.nextPart && w'.db.deliveries[d].responseId == r.responseId
            && w'.db.responses[r.responseId].status.Delivering?))
  }

  lemma SessionLeavesRow(w: World, act: Action, d: nat, stray: Option<nat>, m: nat, w': World)
    requires Fits(w.db, d, stray) && Resting(w, d) && OnTables(act) && !Parts(w, act, d) && w' == Step(w, act, m)
    ensures RowStays(w, act, d, w')
  {
    if act.DoRetry? && act.session in w.looks && w.looks[act.session].AtStop? {
      RetryMends(w.db, d, stray, w.looks[act.session].stop, act.at);
    }
  }

  ghost predicate SameRow(db: Db, db': Db, d: nat) {
    && d < |db.deliveries| && d < |db'.deliveries| && db'.deliveries[d] == db.deliveries[d]
    && var rid := db.deliveries[d].responseId;
       rid in db.responses && rid in db'.responses && db'.responses[rid] == db.responses[rid]
  }

  lemma MarkLeavesRow(w: World, act: Action, d: nat, stray: Option<nat>, m: nat)
    requires Fits(w.db, d, stray) && Resting(w, d) && act.DoMark?
    ensures SameRow(w.db, Step(w, act, m).db, d)
  {
  }

  lemma FailureLeavesRow(w: World, act: Action, d: nat, stray: Option<nat>, m: nat)
    requires Fits(w.db, d, stray) && Resting(w, d) && act.DoRecordFailure?
    ensures SameRow(w.db, Step(w, act, m).db, d)
  {
  }

  lemma WorkerLeavesRow(w: World, act: Action, d: nat, stray: Option<nat>, m: nat, w': World)
    requires Fits(w.db, d, stray) && Resting(w, d) && !OnTables(act) && w' == Step(w, act, m)
    ensures RowStays(w, act, d, w')
  {
    if act.DoMark? {
      MarkLeavesRow(w, act, d, stray, m);
    } else if act.DoRecordFailure? {
      FailureLeavesRow(w, act, d, stray, m);
    } else {
      assert w'.db.deliveries == w.db.deliveries && w'.db.responses == w.db.responses;
    }
  }

  lemma StepLeavesRow(w: World, act: Action, d: nat, stray: Option<nat>, m: nat, w': World)
    requires Fits(w.db, d, stray) && Resting(w, d) && !Parts(w, act, d) && w' == Step(w, act, m)
    ensures RowStays(w, act, d, w')
  {
    if OnTables(act) { SessionLeavesRow(w, act, d, stray, m, w'); } else { WorkerLeavesRow(w, act, d, stray, m, w'); }
  }

  /** A worker that holds the claim of `d` has still not started. */
  lemma StillResting(w: World, act: Action, d: nat, stray: Option<nat>, m: nat, w': World)
    requires Fits(w.db, d, stray) && Resting(w, d) && !Parts(w, act, d) && w' == Step(w, act, m)
    requires TokensUsed(w) && forall k: nat :: k in w.workers ==> w.workers[k].token in w.used
    ensures Resting(w', d)
  {
    StepLeavesRow(w, act, d, stray, m, w');
    forall k: nat | k in w'.workers && w'.workers[k].delivery == d && Held(w'.db, d, w'.workers[k].token)
      ensures w'.workers[k].Looping?
    {
      if OnTables(act) { SessionsMoveNobody(w, act, m, k); } else { WorkersStart(w, act, d, m, k); }
    }
  }

  lemma SessionsMoveNobody(w: World, act: Action, m: nat, k: nat)
    requires OnTables(act) && k in Step(w, act, m).workers
    ensures (k in w.workers && Step(w, act, m).workers[k] == w.workers[k]) || Step(w, act, m).workers[k].Looping?
  {
  }

  /** A worker step keeps delivery and token, and only a start under a claim makes a looping worker anything else. */
  lemma WorkersStart(w: World, act: Action, d: nat, m: nat, k: nat)
    requires !OnTables(act) && !Parts(w, act, d) && k in Step(w, act, m).workers
    ensures k in w.workers
    ensures var x, y := w.workers[k], Step(w, act, m).workers[k];
      && y.delivery == x.delivery && y.token == x.token
      && (x.Looping? && x.delivery == d && Held(w.db, d, x.token) ==> y == x)
  {
    if k != act.worker { OthersGoOn(w, act, m, k); } else { OwnStart(w, act, d, m); }
  }

  lemma OwnStart(w: World, act: Action, d: nat, m: nat)
    requires !OnTables(act) && !Parts(w, act, d) && act.worker in Step(w, act, m).workers
    ensures act.worker in w.workers
    ensures var x, y := w.workers[act.worker], Step(w, act, m).workers[act.worker];
      && y.delivery == x.delivery && y.token == x.token
      && (x.Looping? && x.delivery == d && Held(w.db, d, x.token) ==> y == x)
  {
  }
}
