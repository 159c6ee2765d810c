/**
 When a recovery that missed an attempt in flight is safe: exactly when the attempt was not sent and its worker will not
 send it, because it has failed before.
 */
module DeliveryStrays {
  import opened Basics
  import opened DeliveryOutbox
  import opened DeliveryInvariant
  import opened ChannelSend
  import opened DeliveryProtocol
  import opened DeliverySafety
  import opened DeliveryTheorems
  import opened DeliveryMending
  import Guests = DeliveryGuests

  /** The attempt in flight is the newest of `d`, at the counter; it was not sent and nobody carries it. */
  ghost predicate Astray(w: World, d: nat, a: nat) {
    && d < |w.db.deliveries| && a < |w.db.attempts| && w.db.attempts[a].delivery == d
    && w.db.attempts[a].part == w.db.deliveries[d].nextPart
    && (forall b: nat :: a < b < |w.db.attempts| ==> w.db.attempts[b].delivery != d)
    && !Posted(w, a) && Uncarried(w, a) && NumbersPassed(w, d, a)
  }

  predicate DrawsAt(x: Phase, d: nat, part: nat) {
    x.Starting? && x.delivery == d && x.part == part
  }

  /** Whoever is about to insert at the part of the attempt drew its number before the attempt was there. */
  ghost predicate NumbersPassed(w: World, d: nat, a: nat)
    requires a < |w.db.attempts|
  {
    forall k: nat :: k in w.workers && DrawsAt(w.workers[k], d, w.db.attempts[a].part) ==>
      w.workers[k].number <= w.db.attempts[a].number
  }

  /** The state is not as it should be around delivery `d`, but would be if it were mended. */
  ghost predicate Off(w: World, d: nat, stray: Option<nat>, m: nat) {
    Sound(Mend(w, d, stray), m) && Waits(w, d, stray)
  }

  /** The part of it that does not mention the mended state. */
  ghost predicate Waits(w: World, d: nat, stray: Option<nat>) {
    && Fits(w.db, d, stray) && LooksOk(w) && Resting(w, d) && Seen(w, d, stray)
    && (match stray case None => w.db.deliveries[d].status.Queued? case Some(a) => Astray(w, d, a))
  }

  // ----- Steps that do the same to both -----

  lemma SoundLooks(w: World, looks: map<nat, Look>, m: nat)
    requires Sound(w, m) && LooksOk(w.(looks := looks))
    ensures Sound(w.(looks := looks), m)
  {
    var w' := w.(looks := looks);
    LooksAside(w, looks, m);
    forall d: nat | d < |w'.db.deliveries| && w'.db.deliveries[d].claimToken.Some?
      ensures Holder(w', d, w'.db.deliveries[d].claimToken.value)
    {
      assert Holder(w, d, w.db.deliveries[d].claimToken.value);
    }
  }

  lemma LooksMend(w: World, d: nat, stray: Option<nat>)
    requires LooksOk(w) && Fits(w.db, d, stray)
    ensures LooksOk(Mend(w, d, stray))
  {
    var w' := Mend(w, d, stray);
    forall s: nat | s in w'.looks
      ensures match w'.looks[s]
        case AtClaim(look) => LookOk(w'.db, look) && look.token in w'.used
        case AtStop(look) => StopOk(w'.db, look)
    {
      assert match w.looks[s]
        case AtClaim(look) => LookOk(w.db, look) && look.token in w.used
        case AtStop(look) => StopOk(w.db, look);
    }
  }

  lemma MendedStep(w: World, act: Action, d: nat, stray: Option<nat>, m: nat, w': World)
    requires Off(w, d, stray, m) && 0 < m && FencedStep(w, act) && !Parts(w, act, d) && w' == Step(w, act, m)
    requires Fits(w'.db, d, stray)
    ensures Sound(Mend(w', d, stray), m) && LooksOk(w')
  {
    var v := Mend(w, d, stray);
    StepMirrors(w, act, d, stray, m);
    FenceMends(w, act, d, stray);
    StepKeeps(v, act, m);
    assert TokensUsed(w) by { assert TokensUsed(v); }
    StepKeepsLooks(w, act, m, w');
    LooksMend(w', d, stray);
    SoundLooks(Step(v, act, m), w'.looks, m);
  }

  lemma StillFits(w: World, act: Action, d: nat, stray: Option<nat>, m: nat, w': World)
    requires Off(w, d, stray, m) && FencedStep(w, act) && !Parts(w, act, d) && w' == Step(w, act, m)
    ensures Fits(w'.db, d, stray)
  {
    StepGrows(w, act, m);
    NewIds(w, act, m);
  }

  /** Rows keep their response, and a new row gets a new one. */
  lemma NewIds(w: World, act: Action, m: nat)
    ensures var w' := Step(w, act, m);
      forall e: nat :: |w.db.deliveries| <= e < |w'.db.deliveries| ==> w'.db.deliveries[e].responseId !in w.db.responses
  {
    match act
    case DoMark(k, payload, at, report) =>
    case DoRecordFailure(k, code, retryAt, at) =>
    case _ =>
  }

  // ----- The stray attempt stays astray -----

  /** The attempt is untouched and no other is started at `d`. */
  ghost predicate LeftAlone(db: Db, d: nat, a: nat, db': Db) {
    && |db.attempts| <= |db'.attempts| && a < |db.attempts| && db'.attempts[a] == db.attempts[a]
    && (forall b: nat :: b < |db.attempts| ==> db'.attempts[b].delivery == db.attempts[b].delivery)
    && (forall b: nat :: |db.attempts| <= b < |db'.attempts| ==> db'.attempts[b].delivery != d)
  }

  ghost predicate Uncarried(w: World, a: nat) {
    forall k: nat :: k in w.workers && w.workers[k].Busy? ==> w.workers[k].attempt != a
  }

  lemma SessionLeavesStray(w: World, act: Action, d: nat, a: nat, m: nat, w': World)
    requires Waits(w, d, Some(a)) && OnTables(act) && !Parts(w, act, d) && w' == Step(w, act, m)
    ensures LeftAlone(w.db, d, a, w'.db) && Uncarried(w', a) && w'.posts == w.posts
  {
    SessionLeavesAttempt(w, act, d, a, m, w');
    forall k: nat | k in w'.workers && w'.workers[k].Busy? ensures w'.workers[k].attempt != a {
      SessionsMoveNobody(w, act, m, k);
    }
  }

  lemma SessionLeavesAttempt(w: World, act: Action, d: nat, a: nat, m: nat, w': World)
    requires Waits(w, d, Some(a)) && OnTables(act) && !Parts(w, act, d) && w' == Step(w, act, m)
    ensures LeftAlone(w.db, d, a, w'.db) && w'.posts == w.posts
  {
    if act.DoRecover? && act.session in w.looks && w.looks[act.session].AtClaim? {
      assert LookOk(w.db, w.looks[act.session].claim);
    }
  }

  lemma MarkLeaves(db: Db, e: nat, token: Token, b: nat, part: nat, payload: string, at: Time, d: nat, a: nat)
    requires b != a && a < |db.attempts|
    ensures var t := MarkPartDelivered(db, e, token, b, part, payload, at); t.Committed? ==> LeftAlone(db, d, a, t.db)
  {
  }

  lemma FinishLeaves(db: Db, e: nat, token: Token, b: nat, how: Closing, code: string, at: Time, d: nat, a: nat)
    requires b != a && a < |db.attempts|
    ensures var t := FinishAttempt(db, e, token, b, how, code, at); t.Committed? ==> LeftAlone(db, d, a, t.db)
  {
  }

  lemma CarrierLeavesAttempt(w: World, act: Action, d: nat, a: nat, m: nat, w': World)
    requires a < |w.db.attempts| && Uncarried(w, a) && !OnTables(act) && !act.DoStart? && !act.DoInsert?
      && w' == Step(w, act, m)
    ensures LeftAlone(w.db, d, a, w'.db)
  {
    if act.worker in w.workers && w.workers[act.worker].Busy? {
      var x := w.workers[act.worker];
      if act.DoMark? {
        MarkLeaves(w.db, x.delivery, x.token, x.attempt, x.part, act.payload, act.at, d, a);
      } else if act.DoRecordFailure? && x.stage.Failing? {
        var how := ClosingFor(x.stage.error, x.number, m, act.retryAt);
        FinishLeaves(w.db, x.delivery, x.token, x.attempt, how, act.code, act.at, d, a);
      }
    }
  }

  lemma CarrierLeavesPosts(w: World, act: Action, a: nat, m: nat, w': World)
    requires Uncarried(w, a) && !OnTables(act) && !act.DoStart? && !act.DoInsert? && w' == Step(w, act, m)
    ensures Posted(w', a) ==> Posted(w, a)
  {
    if w'.posts != w.posts {
      var q := w'.posts[|w.posts|];
      assert w'.posts == w.posts + [q];
      OtherPosts(w, w', q, a);
    }
  }

  /** Workers with an attempt keep it. */
  lemma CarriersKeepTheirs(w: World, act: Action, a: nat, m: nat, w': World)
    requires Uncarried(w, a) && !OnTables(act) && !act.DoStart? && !act.DoInsert? && w' == Step(w, act, m)
    ensures Uncarried(w', a)
  {
    forall k: nat | k in w'.workers && w'.workers[k].Busy? ensures w'.workers[k].attempt != a {
      if k != act.worker {
        OthersGoOn(w, act, m, k);
      } else if k in w.workers && w.workers[k].Busy? {
        Guests.CarrierKeepsAttempt(w, act, m);
      }
    }
  }

  /** A start or an insert is at another delivery, or is refused. */
  lemma StarterLeavesStray(w: World, act: Action, d: nat, a: nat, m: nat, w': World)
    requires Waits(w, d, Some(a)) && (act.DoStart? || act.DoInsert?) && FencedStep(w, act) && !Parts(w, act, d)
    requires w' == Step(w, act, m)
    ensures LeftAlone(w.db, d, a, w'.db) && Uncarried(w', a) && w'.posts == w.posts
  {
    StarterGetsOther(w, act, d, a, m);
    forall k: nat | k in w'.workers && w'.workers[k].Busy? ensures w'.workers[k].attempt != a {
      if k != act.worker { OthersGoOn(w, act, m, k); }
    }
  }

  lemma StarterGetsOther(w: World, act: Action, d: nat, a: nat, m: nat)
    requires (act.DoStart? || act.DoInsert?) && FencedStep(w, act) && !Parts(w, act, d) && Resting(w, d)
    requires a < |w.db.attempts| && w.db.attempts[a].delivery == d && Uncarried(w, a)
    ensures var w' := Step(w, act, m);
      && LeftAlone(w.db, d, a, w'.db) && w'.posts == w.posts
      && (act.worker in w'.workers && w'.workers[act.worker].Busy? ==> w'.workers[act.worker].attempt != a)
  {
  }

  lemma StepLeavesStray(w: World, act: Action, d: nat, a: nat, m: nat, w': World)
    requires Waits(w, d, Some(a)) && FencedStep(w, act) && !Parts(w, act, d) && w' == Step(w, act, m)
    ensures LeftAlone(w.db, d, a, w'.db) && Uncarried(w', a) && (Posted(w', a) ==> Posted(w, a))
  {
    if OnTables(act) {
      SessionLeavesStray(w, act, d, a, m, w');
      Guests.SamePosts(w, w', a);
    } else if act.DoStart? || act.DoInsert? {
      StarterLeavesStray(w, act, d, a, m, w');
      Guests.SamePosts(w, w', a);
    } else {
      CarrierLeavesAttempt(w, act, d, a, m, w');
      CarrierLeavesPosts(w, act, a, m, w');
      CarriersKeepTheirs(w, act, a, m, w');
    }
  }

  lemma StillAstray(w: World, act: Action, d: nat, a: nat, m: nat, w': World)
    requires Waits(w, d, Some(a)) && FencedStep(w, act) && !Parts(w, act, d) && w' == Step(w, act, m)
    ensures Astray(w', d, a) && InFlight(w'.db, a)
  {
    StepLeavesStray(w, act, d, a, m, w');
    StepLeavesRow(w, act, d, Some(a), m, w');
    forall k: nat | k in w'.workers && DrawsAt(w'.workers[k], d, w'.db.attempts[a].part)
      ensures w'.workers[k].number <= w'.db.attempts[a].number
    {
      NobodyDraws(w, act, d, m, k);
    }
  }

  /** Without a claim nobody draws a number at `d`. */
  lemma NobodyDraws(w: World, act: Action, d: nat, m: nat, k: nat)
    requires !Parts(w, act, d) && k in Step(w, act, m).workers
    requires Step(w, act, m).workers[k].Starting? && Step(w, act, m).workers[k].delivery == d
    ensures k in w.workers && w.workers[k] == Step(w, act, m).workers[k]
  {
    if OnTables(act) {
      TablesStartNothing(w, act, m, Step(w, act, m), k);
    } else if k != act.worker {
      OthersGoOn(w, act, m, k);
    } else if !act.DoStart? {
      OnlyStartStarts(w, act, m);
    }
  }

  /** A look at the present claim finds the stray attempt. */
  lemma StillSeen(w: World, act: Action, d: nat, stray: Option<nat>, m: nat, w': World)
    requires Waits(w, d, stray) && FencedStep(w, act) && !Parts(w, act, d) && w' == Step(w, act, m)
    requires stray.Some? ==> InFlight(w'.db, stray.value)
    requires Fits(w'.db, d, stray) && (stray.None? ==> w'.db.deliveries[d].status.Queued?)
    ensures Seen(w', d, stray)
  {
    StepLeavesRow(w, act, d, stray, m, w');
    forall s: nat | s in w'.looks && w'.looks[s].AtClaim? && LooksAt(w'.db, w'.looks[s].claim, d)
      ensures stray.Some? && w'.looks[s].claim.active == stray
    {
      if s in w.looks && w'.looks[s] == w.looks[s] {
        assert w.looks[s].claim.token in w.used;
      } else {
        NewLook(w, act, m, s);
        ActiveIsStray(w, d, stray);
      }
    }
  }

  lemma NewLook(w: World, act: Action, m: nat, s: nat)
    requires s in Step(w, act, m).looks && Step(w, act, m).looks[s].AtClaim?
    requires !(s in w.looks && Step(w, act, m).looks[s] == w.looks[s])
    ensures act.DoLookRecover? && Step(w, act, m).db == w.db
    ensures LookAtClaim(w.db, act.delivery) == Some(Step(w, act, m).looks[s].claim)
  {
    if !OnTables(act) { WorkerStepGrows(w, act, m, Step(w, act, m)); }
  }

  lemma ActiveIsStray(w: World, d: nat, stray: Option<nat>)
    requires Waits(w, d, stray) && w.db.deliveries[d].status.Delivering?
    ensures stray.Some? && ActiveAttempt(w.db, d, w.db.deliveries[d].nextPart) == stray
  {
    var a := stray.value;
    var active := ActiveAttempt(w.db, d, w.db.deliveries[d].nextPart);
    LastIsActive(w.db, d, w.db.deliveries[d].nextPart, a, |w.db.attempts|);
  }

  lemma {:induction false} LastIsActive(db: Db, d: nat, part: nat, a: nat, n: nat)
    requires a < n <= |db.attempts| && InFlight(db, a) && db.attempts[a].delivery == d && db.attempts[a].part == part
    requires forall b: nat :: a < b < n ==> db.attempts[b].delivery != d
    ensures ActiveBelow(db, d, part, n) == Some(a)
    decreases n
  {
    if n > a + 1 { LastIsActive(db, d, part, a, n - 1); }
  }

  /**
   A step that does the same to both leaves the state off, or as it should be once a merely misnamed response is
   claimed.
   */
  lemma OffStep(w: World, act: Action, d: nat, stray: Option<nat>, m: nat, w': World)
    requires Off(w, d, stray, m) && 0 < m && FencedStep(w, act) && !Parts(w, act, d) && w' == Step(w, act, m)
    ensures Off(w', d, stray, m) || Sound(w', m)
  {
    StillFits(w, act, d, stray, m, w');
    MendedStep(w, act, d, stray, m, w');
    StepLeavesRow(w, act, d, stray, m, w');
    if stray.None? && !w'.db.deliveries[d].status.Queued? {
      assert Mend(w', d, stray).db.responses == w'.db.responses;
      assert Mend(w', d, stray) == w';
    } else {
      if stray.Some? { StillAstray(w, act, d, stray.value, m, w'); }
      StillSeen(w, act, d, stray, m, w');
      TokensKnown(w, d, stray, m);
      StillResting(w, act, d, stray, m, w');
    }
  }

  lemma TokensKnown(w: World, d: nat, stray: Option<nat>, m: nat)
    requires Sound(Mend(w, d, stray), m)
    ensures TokensUsed(w) && forall k: nat :: k in w.workers ==> w.workers[k].token in w.used
  {
    var v := Mend(w, d, stray);
    assert TokensUsed(v);
    forall k: nat | k in w.workers ensures w.workers[k].token in w.used { assert PhaseOk(v, v.workers[k]); }
  }

  // ----- The next worker takes the stray attempt up -----

  lemma ShiftedRetries(w: World, v: World, x: ManualRetry, e: nat, part: nat)
    requires v.retries == [x] + w.retries
    ensures |Retries(v, e, part)| == |Retries(w, e, part)| + (if x.delivery == e && x.part == part then 1 else 0)
    ensures !x.fromUncertain ==> |UncertainRetries(v, e, part)| == |UncertainRetries(w, e, part)|
  {
    ShiftedSize(Retries(w, e, part), Retries(v, e, part));
    if !x.fromUncertain { ShiftedSize(UncertainRetries(w, e, part), UncertainRetries(v, e, part)); }
  }

  lemma ShiftedSize(s: set<nat>, t: set<nat>)
    requires forall i: nat :: i in s <==> i + 1 in t
    ensures |t| == |s| + (if 0 in t then 1 else 0)
  {
    var rest := t - {0};
    ShiftUp(s, rest);
    ShiftDown(s, rest);
    if 0 in t { assert t == rest + {0}; } else { assert t == rest; }
  }

  lemma ShiftUp(s: set<nat>, rest: set<nat>)
    requires forall i: nat :: i in s ==> i + 1 in rest
    ensures |s| <= |rest|
  {
    var up: nat -> nat := (i: nat) => i + 1;
    InjectionSize(s, rest, up);
  }

  lemma ShiftDown(s: set<nat>, rest: set<nat>)
    requires forall i: nat :: i in rest ==> 0 < i && i - 1 in s
    ensures |rest| <= |s|
  {
    var down: nat -> nat := (i: nat) => if i > 0 then i - 1 else 0;
    InjectionSize(rest, s, down);
  }

  /** The stray attempt back in flight, under the claim of a worker that has not started. */
  ghost predicate Claimed(w: World, d: nat, a: nat, k: nat, m: nat) {
    && Off(w, d, Some(a), m) && k in w.workers && w.workers[k].Looping? && w.workers[k].delivery == d
    && Held(w.db, d, w.workers[k].token)
  }

  lemma MendedClaim(w: World, d: nat, a: nat, k: nat, m: nat)
    requires Claimed(w, d, a, k, m)
    ensures var v := Mend(w, d, Some(a));
      && v.db == w.db.(attempts := w.db.attempts[a := Dropped(w.db.attempts[a])])
      && Idle(v.db, d) && w.workers[k].part == w.db.deliveries[d].nextPart
      && v.retries == [ManualRetry(d, w.db.deliveries[d].nextPart, false)] + w.retries
  {
    var v := Mend(w, d, Some(a));
    assert PhaseOk(v, v.workers[k]);
    assert v.db.responses == w.db.responses;
  }

  lemma RevivedTables(w: World, d: nat, a: nat, k: nat, m: nat)
    requires Claimed(w, d, a, k, m)
    ensures DbInv(w.db)
  {
    MendedClaim(w, d, a, k, m);
    var db, db' := Mend(w, d, Some(a)).db, w.db;
    assert forall c: nat :: c < |db'.attempts| ==> db'.attempts[c].delivery == db.attempts[c].delivery;
    forall e: nat | e < |db'.deliveries| ensures RowOk(db', e) { assert RowOk(db, e); }
    forall b: nat | b < |db'.attempts| ensures AttemptOk(db', b) && InFlightOk(db', b) {
      assert AttemptOk(db, b) && InFlightOk(db, b);
    }
    SameNumbers(db.attempts, db'.attempts);
    forall e: nat, part: nat | (e, part) in db'.receipts
      ensures ReceiptOk(db', e, part)
    {
      assert ReceiptOk(db, e, part);
    }
  }

  lemma LastCounts(w: World, d: nat, a: nat)
    requires DbInv(w.db) && Astray(w, d, a)
    ensures w.db.attempts[a].number == Count(w.db, d, w.db.attempts[a].part)
  {
    var s := w.db.attempts;
    SameParts(s[..a + 1], s, d, s[a].part, |s|);
    SameCount(s[..a + 1], s, d, s[a].part, a + 1);
  }

  lemma RevivedPhase(w: World, d: nat, a: nat, k: nat, m: nat, j: nat, w': World)
    requires Claimed(w, d, a, k, m) && DbInv(w.db) && j in w.workers && w' == TakeUp(w, k, w.workers[k], a)
    ensures PhaseOk(w', w'.workers[j])
  {
    MendedClaim(w, d, a, k, m);
    var v := Mend(w, d, Some(a));
    assert PhaseOk(v, v.workers[j]);
    if j != k {
      assert Apart(v.workers[j], v.workers[k]);
      OtherPhase(w, v, d, a, w.workers[j]);
      assert forall b: nat :: Posted(w', b) <==> Posted(w, b);
      assert forall b: nat :: PostedWithEffect(w', b) <==> PostedWithEffect(w, b);
    }
  }

  /** A worker that does not hold the claim of `d` sees no difference. */
  lemma OtherPhase(w: World, v: World, d: nat, a: nat, x: Phase)
    requires DbInv(w.db) && Astray(w, d, a) && InFlight(w.db, a) && (x.delivery == d ==> !Held(w.db, d, x.token))
    requires v.db == w.db.(attempts := w.db.attempts[a := Dropped(w.db.attempts[a])]) && v.posts == w.posts
      && v.used == w.used
    requires PhaseOk(v, x) && (x.Busy? ==> x.attempt != a)
    requires DrawsAt(x, d, w.db.attempts[a].part) ==> x.number <= w.db.attempts[a].number
    ensures PhaseOk(w, x)
  {
    LastCounts(w, d, a);
    assert forall b: nat :: InFlight(w.db, b) && b != a ==> InFlight(v.db, b) && v.db.attempts[b] == w.db.attempts[b];
    if x.Busy? {
      assert Posted(v, x.attempt) <==> Posted(w, x.attempt);
      assert PostedWithEffect(v, x.attempt) <==> PostedWithEffect(w, x.attempt);
      assert x.delivery != d && Idle(v.db, x.delivery) ==> Idle(w.db, x.delivery);
    } else {
      SameCount(v.db.attempts, w.db.attempts, x.delivery, x.part, |w.db.attempts|);
      assert x.delivery != d && Idle(v.db, x.delivery) ==> Idle(w.db, x.delivery);
      assert !DrawsAt(x, d, w.db.attempts[a].part) && x.Starting? && ClearAt(v.db, x.delivery, x.part) ==>
        ClearAt(w.db, x.delivery, x.part);
    }
  }

  /** The tables of `v` are those of `w` with one in-flight attempt of a claimed delivery dropped. */
  ghost predicate Drops(w: World, v: World, d: nat, a: nat) {
    && d < |w.db.deliveries| && w.db.deliveries[d].status.Delivering? && InFlight(w.db, a)
    && w.db.attempts[a].delivery == d && w.db.attempts[a].part == w.db.deliveries[d].nextPart
    && v.db == w.db.(attempts := w.db.attempts[a := Dropped(w.db.attempts[a])]) && Idle(v.db, d)
    && v.retries == [ManualRetry(d, w.db.deliveries[d].nextPart, false)] + w.retries
  }

  lemma BudgetHere(w: World, v: World, d: nat, a: nat, m: nat)
    requires Drops(w, v, d, a)
    requires EffectBudget(v, d, w.db.deliveries[d].nextPart) && AttemptBudget(v, d, w.db.deliveries[d].nextPart, m)
    ensures EffectBudget(w, d, w.db.deliveries[d].nextPart) && AttemptBudget(w, d, w.db.deliveries[d].nextPart, m)
  {
    var part := w.db.deliveries[d].nextPart;
    ShiftedRetries(w, v, v.retries[0], d, part);
    SameCount(v.db.attempts, w.db.attempts, d, part, |w.db.attempts|);
    assert NotFailed(w.db, d, part) == NotFailed(v.db, d, part) + {a};
    assert !Idle(w.db, d);
  }

  lemma BudgetThere(w: World, v: World, d: nat, a: nat, m: nat, e: nat, part: nat)
    requires Drops(w, v, d, a) && EffectBudget(v, e, part) && AttemptBudget(v, e, part, m)
    requires e != d || part != w.db.deliveries[d].nextPart
    ensures EffectBudget(w, e, part) && AttemptBudget(w, e, part, m)
  {
    ShiftedRetries(w, v, v.retries[0], e, part);
    SameCount(v.db.attempts, w.db.attempts, e, part, |w.db.attempts|);
    assert NotFailed(w.db, e, part) == NotFailed(v.db, e, part);
    if e != d { IdleElsewhere(w, v, d, a, e); }
  }

  lemma IdleElsewhere(w: World, v: World, d: nat, a: nat, e: nat)
    requires Drops(w, v, d, a) && e != d
    ensures Idle(w.db, e) <==> Idle(v.db, e)
  {
    assert forall b: nat :: InFlight(w.db, b) && b != a ==> InFlight(v.db, b) && v.db.attempts[b] == w.db.attempts[b];
    assert forall b: nat :: InFlight(v.db, b) ==> InFlight(w.db, b) && v.db.attempts[b] == w.db.attempts[b];
  }

  lemma RevivedBudget(w: World, d: nat, a: nat, k: nat, m: nat, e: nat, part: nat, w': World)
    requires Claimed(w, d, a, k, m) && w'.db == w.db && w'.retries == w.retries
    ensures EffectBudget(w', e, part) && AttemptBudget(w', e, part, m)
  {
    MendedClaim(w, d, a, k, m);
    var v := Mend(w, d, Some(a));
    assert EffectBudget(v, e, part) && AttemptBudget(v, e, part, m);
    if e == d && part == w.db.deliveries[d].nextPart {
      BudgetHere(w', v, d, a, m);
    } else {
      BudgetThere(w', v, d, a, m, e, part);
    }
  }

  lemma RevivedHistory(w: World, d: nat, a: nat, m: nat)
    requires Off(w, d, Some(a), m)
    ensures PostsOk(w)
  {
    var v := Mend(w, d, Some(a));
    forall i: nat | i < |w.posts| ensures PostOk(w, i) {
      assert PostOk(v, i);
      assert w.posts[i].attempt != a;
    }
  }

  /** Taking the stray attempt up under a claim puts everything right. */
  lemma Revived(w: World, d: nat, a: nat, k: nat, m: nat, w': World)
    requires Claimed(w, d, a, k, m) && w' == TakeUp(w, k, w.workers[k], a)
    ensures Sound(w', m)
  {
    RevivedTables(w, d, a, k, m);
    RevivedHistory(w, d, a, m);
    TokensKnown(w, d, Some(a), m);
    forall j: nat | j in w'.workers ensures PhaseOk(w', w'.workers[j]) { RevivedPhase(w, d, a, k, m, j, w'); }
    RevivedApart(w, d, a, k, m, w');
    forall i: nat | i < |w'.posts| ensures PostOk(w', i) { assert PostOk(w, i); }
    forall e: nat, part: nat ensures EffectBudget(w', e, part) && AttemptBudget(w', e, part, m) {
      RevivedBudget(w, d, a, k, m, e, part, w');
    }
    RevivedAttended(w, d, a, k, m, w');
  }

  lemma RevivedApart(w: World, d: nat, a: nat, k: nat, m: nat, w': World)
    requires Claimed(w, d, a, k, m) && w' == TakeUp(w, k, w.workers[k], a)
    ensures forall i: nat, j: nat :: i in w'.workers && j in w'.workers && i != j ==>
      Apart(w'.workers[i], w'.workers[j])
  {
    var v := Mend(w, d, Some(a));
    forall i: nat, j: nat | i in w'.workers && j in w'.workers && i != j ensures Apart(w'.workers[i], w'.workers[j]) {
      assert Apart(v.workers[i], v.workers[j]);
    }
  }

  lemma RevivedAttended(w: World, d: nat, a: nat, k: nat, m: nat, w': World)
    requires Claimed(w, d, a, k, m) && w' == TakeUp(w, k, w.workers[k], a)
    ensures Attended(w') && PartsExist(w') && LooksOk(w')
  {
    var v := Mend(w, d, Some(a));
    forall e: nat | e < |w'.db.deliveries| && w'.db.deliveries[e].claimToken.Some?
      ensures Holder(w', e, w'.db.deliveries[e].claimToken.value)
    {
      var token := w'.db.deliveries[e].claimToken.value;
      assert Holder(v, e, token);
      var j: nat :| j in v.workers && v.workers[j].delivery == e && v.workers[j].token == token;
      assert w'.workers[j].delivery == e && w'.workers[j].token == token;
    }
    forall j: nat | j in w'.workers && w'.workers[j].Starting?
      ensures HasPart(w'.db, w'.workers[j].delivery, w'.workers[j].part)
    {
      assert HasPart(v.db, v.workers[j].delivery, v.workers[j].part);
    }
  }

  // ----- Steps that part -----

  lemma StartTakesUp(w: World, act: Action, d: nat, a: nat, m: nat)
    requires Off(w, d, Some(a), m) && act.DoStart? && Parts(w, act, d)
    ensures Sound(Step(w, act, m), m)
  {
    var k := act.worker;
    MendedClaim(w, d, a, k, m);
    ActiveIsStray(w, d, Some(a));
    var w' := TakeUp(w, k, w.workers[k], a);
    assert w' == Step(w, act, m);
    Revived(w, d, a, k, m, w');
  }

  /** Recovering the new claim finds the stray attempt and puts it into quarantine. */
  lemma RecoveryQuarantines(w: World, act: Action, d: nat, a: nat, m: nat)
    requires Off(w, d, Some(a), m) && 0 < m && act.DoRecover? && Parts(w, act, d)
    ensures Sound(Step(w, act, m), m)
  {
    var look := w.looks[act.session].claim;
    assert LooksAt(w.db, look, d) && look.active == Some(a);
    var k := ClaimHolder(w, d, a, m);
    var u := TakeUp(w, k, w.workers[k], a);
    Revived(w, d, a, k, m, u);
    StepKeeps(u, act, m);
    MendedClaim(w, d, a, k, m);
    RecoverySame(w, u, k, act, m);
    RecoveryFrees(w, act, m);
    BackToLoop(Step(u, act, m), k, w.workers[k], m);
  }

  lemma ClaimHolder(w: World, d: nat, a: nat, m: nat) returns (k: nat)
    requires Off(w, d, Some(a), m) && w.db.deliveries[d].status.Delivering?
    ensures Claimed(w, d, a, k, m) && w.db.deliveries[d].claimToken == Some(w.workers[k].token)
  {
    var v := Mend(w, d, Some(a));
    assert RowOk(v.db, d);
    var token := v.db.deliveries[d].claimToken.value;
    assert Holder(v, d, token);
    k :| k in v.workers && v.workers[k].delivery == d && v.workers[k].token == token;
  }

  lemma RecoverySame(w: World, u: World, k: nat, act: Action, m: nat)
    requires act.DoRecover? && k in w.workers && k in u.workers && u == w.(workers := w.workers[k := u.workers[k]])
    ensures Step(w, act, m) == Step(u, act, m).(workers := Step(u, act, m).workers[k := w.workers[k]])
    ensures k in Step(u, act, m).workers && Step(u, act, m).workers[k] == u.workers[k]
  {
    assert w.workers == u.workers[k := w.workers[k]];
  }

  lemma RecoveryFrees(w: World, act: Action, m: nat)
    requires act.DoRecover? && act.session in w.looks && w.looks[act.session].AtClaim?
    requires RecoverCommit(w.db, w.looks[act.session].claim, act.channel, act.cutoff, act.at).Committed?
    ensures var w', d := Step(w, act, m), w.looks[act.session].claim.delivery;
      && d < |w'.db.deliveries| == |w.db.deliveries| && !w'.db.deliveries[d].status.Delivering?
      && w'.db.deliveries[d].nextPart == w.db.deliveries[d].nextPart
  {
  }

  lemma BackToLoop(w: World, k: nat, y: Phase, m: nat)
    requires Sound(w, m) && k in w.workers && w.workers[k].Busy? && y.Looping?
    requires y.token == w.workers[k].token && y.delivery == w.workers[k].delivery && y.delivery < |w.db.deliveries|
    requires !Held(w.db, y.delivery, y.token) && y.part <= w.db.deliveries[y.delivery].nextPart
    ensures Sound(w.(workers := w.workers[k := y]), m)
  {
    var w' := w.(workers := w.workers[k := y]);
    assert PhaseOk(w, w.workers[k]);
    MoveKeeps(w, k, y, m);
    forall d: nat | d < |w'.db.deliveries| && w'.db.deliveries[d].claimToken.Some?
      ensures Holder(w', d, w'.db.deliveries[d].claimToken.value)
    {
      var token := w.db.deliveries[d].claimToken.value;
      assert Holder(w, d, token);
      var j: nat :| j in w.workers && w.workers[j].delivery == d && w.workers[j].token == token;
      assert w'.workers[j].delivery == d && w'.workers[j].token == token;
    }
  }

  // ----- Runs -----

  ghost predicate Good(w: World, d: nat, stray: Option<nat>, m: nat) {
    Sound(w, m) || Off(w, d, stray, m)
  }

  lemma GoodStep(w: World, act: Action, d: nat, stray: Option<nat>, m: nat)
    requires Good(w, d, stray, m) && 0 < m && FencedStep(w, act)
    ensures Good(Step(w, act, m), d, stray, m)
  {
    if Sound(w, m) {
      StepKeeps(w, act, m);
    } else if !Parts(w, act, d) {
      OffStep(w, act, d, stray, m, Step(w, act, m));
    } else if act.DoStart? {
      StartTakesUp(w, act, d, stray.value, m);
    } else {
      RecoveryQuarantines(w, act, d, stray.value, m);
    }
  }

  lemma GoodPromises(w: World, d: nat, stray: Option<nat>, m: nat)
    requires Good(w, d, stray, m)
    ensures Promise(w)
  {
    if Sound(w, m) {
      InvPromises(w, m);
    } else if stray.None? {
      MisnamedPromises(w, d, m);
    } else {
      StrayPromises(w, d, stray.value, m);
    }
  }

  lemma MisnamedPromises(w: World, d: nat, m: nat)
    requires Off(w, d, None, m)
    ensures Promise(w)
  {
    var v := Mend(w, d, None);
    InvPromises(v, m);
    forall i: nat | i < |w.posts| ensures PostOk(w, i) { assert PostOk(v, i); }
    forall e: nat, part: nat ensures |NotFailed(w.db, e, part)| <= 1 + |UncertainRetries(w, e, part)| {
      assert NotFailed(w.db, e, part) == NotFailed(v.db, e, part)
        && UncertainRetries(w, e, part) == UncertainRetries(v, e, part);
    }
  }

  lemma StrayPromises(w: World, d: nat, a: nat, m: nat)
    requires Off(w, d, Some(a), m)
    ensures Promise(w)
  {
    RevivedHistory(w, d, a, m);
    forall e: nat, part: nat ensures |NotFailed(w.db, e, part)| <= 1 + |UncertainRetries(w, e, part)| {
      StrayBudget(w, d, a, m, e, part);
    }
  }

  lemma StrayBudget(w: World, d: nat, a: nat, m: nat, e: nat, part: nat)
    requires Off(w, d, Some(a), m)
    ensures |NotFailed(w.db, e, part)| <= 1 + |UncertainRetries(w, e, part)|
  {
    var v := Mend(w, d, Some(a));
    assert EffectBudget(v, e, part);
    ShiftedRetries(w, v, v.retries[0], e, part);
    if e == d && part == w.db.attempts[a].part {
      assert NotFailed(w.db, e, part) == NotFailed(v.db, e, part) + {a};
      IdleWhenMended(w, d, a, m);
    } else {
      assert NotFailed(w.db, e, part) == NotFailed(v.db, e, part);
    }
  }

  lemma IdleWhenMended(w: World, d: nat, a: nat, m: nat)
    requires Off(w, d, Some(a), m)
    ensures Idle(Mend(w, d, Some(a)).db, d)
  {
    var v := Mend(w, d, Some(a));
    if w.db.deliveries[d].status.Delivering? {
      assert RowOk(v.db, d) && Holder(v, d, v.db.deliveries[d].claimToken.value);
      var k: nat :| k in v.workers && v.workers[k].delivery == d
        && v.workers[k].token == v.db.deliveries[d].claimToken.value;
      assert PhaseOk(v, v.workers[k]);
    } else {
      forall b: nat | InFlight(v.db, b) ensures v.db.attempts[b].delivery != d { assert InFlightOk(v.db, b); }
    }
  }
}
