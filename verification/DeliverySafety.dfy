/** The joint invariant of workers, tables and history, kept by every step of every fenced run. */
module DeliverySafety {
  import opened Basics
  import opened DeliveryOutbox
  import opened DeliveryInvariant
  import opened ChannelSend
  import opened DeliveryProtocol

  // ----- Workers -----

  ghost predicate Open(db: Db, a: nat)
    requires a < |db.attempts|
  {
    db.attempts[a].status.Delivering? || db.attempts[a].status.Uncertain?
  }

  ghost predicate Posted(w: World, a: nat) {
    exists i: nat :: i < |w.posts| && w.posts[i].attempt == a
  }

  ghost predicate PostedWithEffect(w: World, a: nat) {
    exists i: nat :: i < |w.posts| && w.posts[i].attempt == a && w.posts[i].effect
  }

  ghost predicate ClearAt(db: Db, d: nat, part: nat) {
    forall a: nat :: InFlight(db, a) ==> db.attempts[a].delivery != d || db.attempts[a].part != part
  }

  function Count(db: Db, d: nat, part: nat): nat {
    CountPart(db.attempts, d, part, |db.attempts|)
  }

  /**
   A drawn number is the next one while the claim stands; as long as it is free nothing was started since it was drawn.
   */
  ghost predicate NumberOk(w: World, x: Phase)
    requires x.Starting?
  {
    && 1 <= x.number <= Count(w.db, x.delivery, x.part) + 1
    && (Held(w.db, x.delivery, x.token) ==> x.number == Count(w.db, x.delivery, x.part) + 1)
    && (x.number == Count(w.db, x.delivery, x.part) + 1 ==> ClearAt(w.db, x.delivery, x.part))
  }

  /** A worker without an attempt: while its claim stands it is at the counter and nothing is in flight. */
  ghost predicate WaitingOk(w: World, x: Phase) {
    && x.delivery < |w.db.deliveries|
    && x.token in w.used
    && x.part <= w.db.deliveries[x.delivery].nextPart
    && (Held(w.db, x.delivery, x.token) ==> x.part == w.db.deliveries[x.delivery].nextPart && Idle(w.db, x.delivery))
    && (x.Starting? ==> NumberOk(w, x))
  }

  /**
   The attempt a worker carries is its own: in flight exactly while its claim stands, or its delivery is already
   receipted.
   */
  ghost predicate BusyOk(w: World, x: Phase)
    requires x.Busy?
  {
    && x.delivery < |w.db.deliveries|
    && x.token in w.used
    && x.attempt < |w.db.attempts|
    && w.db.attempts[x.attempt].delivery == x.delivery
    && w.db.attempts[x.attempt].part == x.part
    && w.db.attempts[x.attempt].number == x.number
    && (w.db.attempts[x.attempt].status.Delivering? ==> Held(w.db, x.delivery, x.token))
    && (Held(w.db, x.delivery, x.token) ==>
          w.db.attempts[x.attempt].status.Delivering?
          || (x.stage.Unsure? && w.db.attempts[x.attempt].status.Delivered? && Idle(w.db, x.delivery)))
    && (x.stage.Unsure? || Open(w.db, x.attempt))
    && !w.db.attempts[x.attempt].status.Failed?
    && (x.stage.Sending? ==> !Posted(w, x.attempt))
    && (x.stage.Accepted? || x.stage.Unsure? ==> Posted(w, x.attempt))
    && (x.stage.Failing? && Classify(x.stage.error) != FailureKind.Uncertain ==> !PostedWithEffect(w, x.attempt))
  }

  ghost predicate PhaseOk(w: World, x: Phase) {
    if x.Busy? then BusyOk(w, x) else WaitingOk(w, x)
  }

  ghost predicate Apart(x: Phase, y: Phase) {
    x.token != y.token && (x.Busy? && y.Busy? ==> x.attempt != y.attempt)
  }

  ghost predicate WorkersOk(w: World) {
    && (forall k: nat :: k in w.workers ==> PhaseOk(w, w.workers[k]))
    && (forall k: nat, l: nat :: k in w.workers && l in w.workers && k != l ==> Apart(w.workers[k], w.workers[l]))
    && TokensUsed(w)
  }

  ghost predicate TokensUsed(w: World) {
    forall d: nat :: d < |w.db.deliveries| && w.db.deliveries[d].claimToken.Some? ==>
      w.db.deliveries[d].claimToken.value in w.used
  }

  // ----- History -----

  ghost predicate PostOk(w: World, i: nat)
    requires i < |w.posts|
  {
    var q := w.posts[i];
    && q.attempt < |w.db.attempts|
    && w.db.attempts[q.attempt].delivery == q.delivery
    && w.db.attempts[q.attempt].part == q.part
    && (q.effect ==> !w.db.attempts[q.attempt].status.Failed?)
  }

  ghost predicate PostsOk(w: World) {
    && (forall i: nat :: i < |w.posts| ==> PostOk(w, i))
    && (forall i: nat, j: nat :: i < j < |w.posts| ==> w.posts[i].attempt != w.posts[j].attempt)
  }

  ghost function NotFailed(db: Db, d: nat, part: nat): set<nat> {
    set a: nat | a < |db.attempts| && db.attempts[a].delivery == d && db.attempts[a].part == part
      && !db.attempts[a].status.Failed?
  }

  ghost function UncertainRetries(w: World, d: nat, part: nat): set<nat> {
    set i: nat | i < |w.retries| && w.retries[i].delivery == d && w.retries[i].part == part
      && w.retries[i].fromUncertain
  }

  ghost function Retries(w: World, d: nat, part: nat): set<nat> {
    set i: nat | i < |w.retries| && w.retries[i].delivery == d && w.retries[i].part == part
  }

  ghost function EffectPosts(w: World, d: nat, part: nat): set<nat> {
    set i: nat | i < |w.posts| && w.posts[i].delivery == d && w.posts[i].part == part && w.posts[i].effect
  }

  /** The part is delivered, in flight or in quarantine. */
  ghost predicate Taken(db: Db, d: nat, part: nat) {
    && d < |db.deliveries|
    && (part < db.deliveries[d].nextPart
        || (part == db.deliveries[d].nextPart && (db.deliveries[d].status.Uncertain? || !Idle(db, d))))
  }

  /**
   Attempts of a part that are not known to have failed: one per manual retry out of quarantine, and one if the part is
   open or done.
   */
  ghost predicate EffectBudget(w: World, d: nat, part: nat) {
    |NotFailed(w.db, d, part)| == |UncertainRetries(w, d, part)| + if Taken(w.db, d, part) then 1 else 0
  }

  ghost predicate MayStart(db: Db, d: nat, part: nat) {
    && d < |db.deliveries| && part == db.deliveries[d].nextPart && Idle(db, d)
    && (db.deliveries[d].status.Queued? || db.deliveries[d].status.Delivering?)
  }

  ghost predicate AttemptBudget(w: World, d: nat, part: nat, maxAttempts: nat) {
    var k := CountPart(w.db.attempts, d, part, |w.db.attempts|);
    && k <= maxAttempts + |Retries(w, d, part)|
    && (MayStart(w.db, d, part) ==> k < maxAttempts + |Retries(w, d, part)|)
  }

  ghost predicate Budgets(w: World, maxAttempts: nat) {
    && (forall d: nat, part: nat :: EffectBudget(w, d, part))
    && (forall d: nat, part: nat :: AttemptBudget(w, d, part, maxAttempts))
  }

  ghost predicate Inv(w: World, maxAttempts: nat) {
    DbInv(w.db) && WorkersOk(w) && PostsOk(w) && Budgets(w, maxAttempts)
  }

  /** Looks may be old, but what they saw still has its place. */
  ghost predicate LooksOk(w: World) {
    forall s: nat :: s in w.looks ==>
      match w.looks[s]
      case AtClaim(look) => LookOk(w.db, look) && look.token in w.used
      case AtStop(look) => StopOk(w.db, look)
  }

  /** Every claim that stands has its worker. */
  ghost predicate Attended(w: World) {
    forall d: nat :: d < |w.db.deliveries| && w.db.deliveries[d].claimToken.Some? ==>
      Holder(w, d, w.db.deliveries[d].claimToken.value)
  }

  ghost predicate Holder(w: World, d: nat, token: Token) {
    exists k: nat :: k in w.workers && w.workers[k].delivery == d && w.workers[k].token == token
  }

  /** What is about to be started is a part of the response. */
  ghost predicate PartsExist(w: World) {
    forall k: nat :: k in w.workers && w.workers[k].Starting? ==>
      HasPart(w.db, w.workers[k].delivery, w.workers[k].part)
  }

  ghost predicate HasPart(db: Db, d: nat, part: nat) {
    && d < |db.deliveries| && db.deliveries[d].responseId in db.responses
    && part < db.responses[db.deliveries[d].responseId].partCount
  }

  ghost predicate Sound(w: World, maxAttempts: nat) {
    Inv(w, maxAttempts) && LooksOk(w) && Attended(w) && PartsExist(w)
  }

  // ----- Frames: a transaction on delivery d leaves the others alone -----

  ghost predicate Touches(db: Db, db': Db, d: nat) {
    && |db'.deliveries| == |db.deliveries|
    && (forall e: nat :: e < |db.deliveries| && e != d ==> db'.deliveries[e] == db.deliveries[e])
    && (d < |db.deliveries| ==> db.deliveries[d].nextPart <= db'.deliveries[d].nextPart)
    && |db.attempts| <= |db'.attempts|
    && (forall a: nat :: a < |db.attempts| && InFlight(db', a) ==> InFlight(db, a))
    && (forall a: nat :: a < |db.attempts| ==>
          && db'.attempts[a].delivery == db.attempts[a].delivery
          && db'.attempts[a].part == db.attempts[a].part
          && db'.attempts[a].number == db.attempts[a].number
          && (db.attempts[a].delivery != d ==> db'.attempts[a] == db.attempts[a]))
    && (forall a: nat :: |db.attempts| <= a < |db'.attempts| ==> db'.attempts[a].delivery == d)
  }

  lemma FramePhase(w: World, db': Db, d: nat, x: Phase)
    requires Touches(w.db, db', d) && PhaseOk(w, x) && x.delivery != d
    ensures PhaseOk(w.(db := db'), x)
  {
    assert Idle(w.db, x.delivery) ==> Idle(db', x.delivery);
    if x.Starting? { SameParts(w.db.attempts, db'.attempts, x.delivery, x.part, |db'.attempts|); }
  }

  /** A claim that is no longer held: the worker's attempt may only have been quarantined meanwhile. */
  lemma UnheldPhase(w: World, db': Db, x: Phase)
    requires PhaseOk(w, x) && Touches(w.db, db', x.delivery) && !Held(db', x.delivery, x.token)
    requires x.Busy? ==>
               || db'.attempts[x.attempt].status.Uncertain?
               || (db'.attempts[x.attempt] == w.db.attempts[x.attempt] && !w.db.attempts[x.attempt].status.Delivering?)
    ensures PhaseOk(w.(db := db'), x)
  {
    if x.Starting? { CountRises(w.db.attempts, db'.attempts, x.delivery, x.part, |db'.attempts|); }
  }

  /** Attempts are only added; a part that has as many as before has got none. */
  lemma {:induction false} CountRises(s: seq<Attempt>, t: seq<Attempt>, d: nat, part: nat, n: nat)
    requires |s| <= n <= |t|
    requires forall a: nat :: a < |s| ==> s[a].delivery == t[a].delivery && s[a].part == t[a].part
    ensures CountPart(s, d, part, |s|) <= CountPart(t, d, part, n)
    ensures CountPart(s, d, part, |s|) == CountPart(t, d, part, n) ==>
              forall a: nat :: |s| <= a < n ==> t[a].delivery != d || t[a].part != part
    decreases n
  {
    if n == |s| { SameCount(s, t, d, part, n); } else { CountRises(s, t, d, part, n - 1); }
  }

  ghost predicate SameHistory(w: World, w': World) {
    w'.posts == w.posts && w'.retries == w.retries
  }

  lemma {:induction false} SameParts(s: seq<Attempt>, t: seq<Attempt>, d: nat, part: nat, n: nat)
    requires |s| <= n <= |t|
    requires forall a: nat :: a < |s| ==> s[a].delivery == t[a].delivery && s[a].part == t[a].part
    requires forall a: nat :: |s| <= a < n ==> t[a].delivery != d || t[a].part != part
    ensures CountPart(t, d, part, n) == CountPart(s, d, part, |s|)
  {
    if n == |s| { SameCount(s, t, d, part, n); } else { SameParts(s, t, d, part, n - 1); }
  }

  /** Budgets of the deliveries that a transaction does not touch. */
  lemma FrameBudget(w: World, w': World, d: nat, e: nat, part: nat, maxAttempts: nat)
    requires Touches(w.db, w'.db, d) && w'.retries == w.retries && Budgets(w, maxAttempts) && e != d
    ensures EffectBudget(w', e, part) && AttemptBudget(w', e, part, maxAttempts)
  {
    assert EffectBudget(w, e, part) && AttemptBudget(w, e, part, maxAttempts);
    assert NotFailed(w'.db, e, part) == NotFailed(w.db, e, part);
    assert UncertainRetries(w', e, part) == UncertainRetries(w, e, part);
    assert Retries(w', e, part) == Retries(w, e, part);
    SameParts(w.db.attempts, w'.db.attempts, e, part, |w'.db.attempts|);
    assert forall a: nat :: InFlight(w.db, a) && w.db.attempts[a].delivery == e ==> InFlight(w'.db, a);
    assert Idle(w'.db, e) ==> Idle(w.db, e);
  }

  // ----- Claim -----

  lemma ClaimStepKeeps(w: World, k: nat, d: nat, channel: string, token: Token, at: Time, m: nat)
    requires Inv(w, m)
    ensures Inv(ClaimStep(w, k, d, channel, token, at), m)
  {
    var w' := ClaimStep(w, k, d, channel, token, at);
    ClaimKeeps(w.db, d, channel, token, at);
    if w' != w {
      assert Touches(w.db, w'.db, d);
      assert RowOk(w.db, d);
      assert Idle(w.db, d) by {
        forall a: nat | InFlight(w.db, a) ensures w.db.attempts[a].delivery != d { assert InFlightOk(w.db, a); }
      }
      forall l: nat | l in w'.workers ensures PhaseOk(w', w'.workers[l]) {
        if l != k { ClaimKeepsPhase(w, w', d, token, l); }
      }
      forall l: nat | l in w.workers ensures w.workers[l].token != token {
        assert PhaseOk(w, w.workers[l]);
      }
      forall i: nat | i < |w'.posts| ensures PostOk(w', i) { assert PostOk(w, i); }
      ClaimKeepsBudgets(w, w', d, m);
    }
  }

  /** A claim does not disturb the workers that are there: the new token is none of theirs. */
  lemma ClaimKeepsPhase(w: World, w': World, d: nat, token: Token, l: nat)
    requires WorkersOk(w) && l in w.workers && token !in w.used && Idle(w.db, d)
    requires Touches(w.db, w'.db, d) && w'.db.attempts == w.db.attempts && d < |w.db.deliveries|
    requires w'.db.deliveries[d].claimToken == Some(token) && w'.posts == w.posts && w'.used == w.used + {token}
    ensures PhaseOk(w', w.workers[l])
  {
    var x := w.workers[l];
    assert PhaseOk(w, x);
    if x.delivery != d { FramePhase(w, w'.db, d, x); } else { UnheldPhase(w, w'.db, x); }
    var v := w.(db := w'.db);
    assert x.Busy? ==> (Posted(v, x.attempt) <==> Posted(w', x.attempt));
    assert x.Busy? ==> (PostedWithEffect(v, x.attempt) <==> PostedWithEffect(w', x.attempt));
  }

  lemma ClaimKeepsBudgets(w: World, w': World, d: nat, m: nat)
    requires Budgets(w, m) && Touches(w.db, w'.db, d) && w'.retries == w.retries && w'.db.attempts == w.db.attempts
      && d < |w.db.deliveries|
    requires w.db.deliveries[d].status.Queued? && w'.db.deliveries[d].status.Delivering?
    requires w'.db.deliveries[d].nextPart == w.db.deliveries[d].nextPart
    ensures Budgets(w', m)
  {
    forall e: nat, part: nat ensures EffectBudget(w', e, part) && AttemptBudget(w', e, part, m) {
      if e != d { FrameBudget(w, w', d, e, part, m); } else {
        assert EffectBudget(w, e, part) && AttemptBudget(w, e, part, m);
        assert NotFailed(w'.db, e, part) == NotFailed(w.db, e, part);
        assert Idle(w'.db, e) <==> Idle(w.db, e);
        assert Retries(w', e, part) == Retries(w, e, part)
          && UncertainRetries(w', e, part) == UncertainRetries(w, e, part);
      }
    }
  }

  // ----- Leaving, and steps that only move a worker -----

  lemma LeaveKeeps(w: World, k: nat, m: nat)
    requires Inv(w, m)
    ensures Inv(Leave(w, k), m)
  {
    var w' := Leave(w, k);
    SameTables(w, w', m);
    forall l: nat | l in w'.workers ensures PhaseOk(w', w'.workers[l]) { assert PhaseOk(w, w.workers[l]); }
  }

  /** Moving workers does not disturb tables, history or budgets. */
  lemma SameTables(w: World, w': World, m: nat)
    requires Inv(w, m) && w'.db == w.db && w'.retries == w.retries && w'.posts == w.posts && w'.used == w.used
    ensures PostsOk(w') && Budgets(w', m)
  {
    forall i: nat | i < |w'.posts| ensures PostOk(w', i) { assert PostOk(w, i); }
    forall e: nat, part: nat ensures EffectBudget(w', e, part) && AttemptBudget(w', e, part, m) {
      assert EffectBudget(w, e, part) && AttemptBudget(w, e, part, m);
      assert Retries(w', e, part) == Retries(w, e, part)
        && UncertainRetries(w', e, part) == UncertainRetries(w, e, part);
    }
  }

  lemma LooksAside(w: World, looks: map<nat, Look>, m: nat)
    requires Inv(w, m)
    ensures Inv(w.(looks := looks), m)
  {
    var w' := w.(looks := looks);
    SameTables(w, w', m);
    forall l: nat | l in w'.workers ensures PhaseOk(w', w'.workers[l]) { assert PhaseOk(w, w.workers[l]); }
  }

  lemma MoveKeeps(w: World, k: nat, y: Phase, m: nat)
    requires Inv(w, m) && k in w.workers
    requires y.token == w.workers[k].token && PhaseOk(w, y)
    requires y.Busy? ==> w.workers[k].Busy? && y.attempt == w.workers[k].attempt
    ensures Inv(w.(workers := w.workers[k := y]), m)
  {
    var w' := w.(workers := w.workers[k := y]);
    SameTables(w, w', m);
    forall l: nat | l in w'.workers ensures PhaseOk(w', w'.workers[l]) {
      assert PhaseOk(w, w'.workers[l]);
      SamePhase(w, w', w'.workers[l]);
    }
    forall j: nat, l: nat | j in w'.workers && l in w'.workers && j != l ensures Apart(w'.workers[j], w'.workers[l]) {
      assert Apart(w.workers[j], w.workers[l]);
    }
  }

  /** What a worker may rely on depends on tables, posts and used tokens only. */
  lemma SamePhase(w: World, w': World, x: Phase)
    requires PhaseOk(w, x) && w'.db == w.db && w'.posts == w.posts && w'.used == w.used
    ensures PhaseOk(w', x)
  {
    if x.Busy? {
      assert Posted(w', x.attempt) <==> Posted(w, x.attempt);
      assert PostedWithEffect(w', x.attempt) <==> PostedWithEffect(w, x.attempt);
    }
  }

  lemma PreSendFailureStepKeeps(w: World, k: nat, e: SendError, m: nat)
    requires Inv(w, m)
    ensures Inv(PreSendFailureStep(w, k, e), m)
  {
    if PreSendFailureStep(w, k, e) != w {
      var x := w.workers[k];
      assert PhaseOk(w, x);
      MoveKeeps(w, k, x.(stage := Failing(e)), m);
    }
  }

  lemma ResolveStepKeeps(w: World, k: nat, m: nat)
    requires Inv(w, m)
    ensures Inv(ResolveStep(w, k), m)
  {
    LeaveKeeps(w, k, m);
    if k in w.workers && w.workers[k].Busy? && w.workers[k].stage.Unsure? {
      var x := w.workers[k];
      assert PhaseOk(w, x);
      assert AttemptOk(w.db, x.attempt) && InFlightOk(w.db, x.attempt);
      if w.db.deliveries[x.delivery].status.Delivering? {
        if (x.delivery, x.part) in w.db.receipts {
          assert ReceiptOk(w.db, x.delivery, x.part);
          MoveKeeps(w, k, Looping(x.delivery, x.token, w.db.deliveries[x.delivery].nextPart), m);
        } else {
          MoveKeeps(w, k, x.(stage := Failing(UncertainError)), m);
        }
      }
    }
  }

  // ----- Post -----

  /** A message is posted for the worker's attempt. */
  ghost predicate Posts(w: World, w': World, k: nat, q: Post, stage: Stage) {
    && k in w.workers && w.workers[k].Busy? && w.workers[k].stage.Sending?
    && w'.db == w.db && w'.used == w.used && w'.retries == w.retries
    && w'.posts == w.posts + [q] && w'.workers == w.workers[k := w.workers[k].(stage := stage)]
    && q.delivery == w.workers[k].delivery && q.part == w.workers[k].part && q.attempt == w.workers[k].attempt
    && !stage.Sending? && !stage.Unsure?
    && (stage.Failing? && Classify(stage.error) != FailureKind.Uncertain ==> !q.effect)
  }

  lemma SendStepKeeps(w: World, k: nat, content: string, account: AccountCheck, reply: Reply, m: nat)
    requires Inv(w, m)
    ensures Inv(SendStep(w, k, content, account, reply), m)
  {
    var w' := SendStep(w, k, content, account, reply);
    if k in w.workers && w.workers[k].Busy? && w.workers[k].stage.Sending? {
      var x := w.workers[k];
      assert PhaseOk(w, x);
      var r := w.db.deliveries[x.delivery];
      SendIsFenced(r.accountId, r.conversationId, content, account, reply);
      if SendText(r.accountId, r.conversationId, content, account, reply).posted {
        PostKeeps(w, w', k, w'.posts[|w.posts|], w'.workers[k].stage, m);
      } else {
        MoveKeeps(w, k, w'.workers[k], m);
      }
    }
  }

  lemma PostKeeps(w: World, w': World, k: nat, q: Post, stage: Stage, m: nat)
    requires Inv(w, m) && Posts(w, w', k, q, stage)
    ensures Inv(w', m)
  {
    PostKeepsHistory(w, w', k, q, stage);
    PostKeepsWorkers(w, w', k, q, stage);
    forall e: nat, part: nat ensures EffectBudget(w', e, part) && AttemptBudget(w', e, part, m) {
      assert EffectBudget(w, e, part) && AttemptBudget(w, e, part, m);
      assert Retries(w', e, part) == Retries(w, e, part)
        && UncertainRetries(w', e, part) == UncertainRetries(w, e, part);
    }
  }

  lemma PostKeepsHistory(w: World, w': World, k: nat, q: Post, stage: Stage)
    requires PostsOk(w) && Posts(w, w', k, q, stage) && PhaseOk(w, w.workers[k])
    ensures PostsOk(w')
  {
    forall i: nat | i < |w'.posts| ensures PostOk(w', i) { if i < |w.posts| { assert PostOk(w, i); } }
    forall i: nat, j: nat | i < j < |w'.posts| ensures w'.posts[i].attempt != w'.posts[j].attempt {
      if j == |w.posts| { assert !Posted(w, w.workers[k].attempt); }
    }
  }

  lemma OtherPosts(w: World, w': World, q: Post, a: nat)
    requires w'.posts == w.posts + [q] && q.attempt != a
    ensures Posted(w', a) <==> Posted(w, a)
    ensures PostedWithEffect(w', a) <==> PostedWithEffect(w, a)
  {
    forall i: nat | i < |w.posts| ensures w'.posts[i] == w.posts[i] {}
  }

  lemma PostKeepsWorkers(w: World, w': World, k: nat, q: Post, stage: Stage)
    requires WorkersOk(w) && Posts(w, w', k, q, stage)
    ensures WorkersOk(w')
  {
    var x := w.workers[k];
    forall l: nat | l in w'.workers ensures PhaseOk(w', w'.workers[l]) {
      var y := w.workers[l];
      assert PhaseOk(w, y);
      if l == k {
        assert w'.posts[|w.posts|].attempt == x.attempt;
        assert q.effect || !PostedWithEffect(w', x.attempt);
      } else if y.Busy? {
        assert Apart(x, y);
        OtherPosts(w, w', q, y.attempt);
      }
    }
    forall l: nat, j: nat | l in w'.workers && j in w'.workers && l != j ensures Apart(w'.workers[l], w'.workers[j]) {
      assert Apart(w.workers[l], w.workers[j]);
    }
  }

  // ----- Start -----

  lemma LandStepKeeps(w: World, k: nat, m: nat)
    requires Inv(w, m) && k in w.workers && w.workers[k].Starting?
    requires Held(w.db, w.workers[k].delivery, w.workers[k].token)
    ensures Inv(LandStep(w, k, w.workers[k]), m)
  {
    var x := w.workers[k];
    var d := x.delivery;
    var w' := LandStep(w, k, x);
    assert PhaseOk(w, x);
    MaxIsCount(w.db, d, x.part, |w.db.attempts|);
    InsertKeeps(w.db, d, x.part, x.number);
    assert Touches(w.db, w'.db, d);
    InsertKeepsWorkers(w, w', k);
    forall i: nat | i < |w'.posts| ensures PostOk(w', i) { assert PostOk(w, i); }
    forall e: nat, part: nat ensures EffectBudget(w', e, part) && AttemptBudget(w', e, part, m) {
      if e != d { FrameBudget(w, w', d, e, part, m); } else {
        assert EffectBudget(w, d, part) && AttemptBudget(w, d, part, m);
        InsertKeepsBudget(w, w', d, x.part, x.number, part, m);
      }
    }
  }

  lemma InsertKeepsWorkers(w: World, w': World, k: nat)
    requires DbInv(w.db) && WorkersOk(w) && PostsOk(w) && k in w.workers && w.workers[k].Starting?
    requires Held(w.db, w.workers[k].delivery, w.workers[k].token)
    requires w' == LandStep(w, k, w.workers[k])
    ensures WorkersOk(w')
  {
    var x := w.workers[k];
    assert PhaseOk(w, x);
    assert Touches(w.db, w'.db, x.delivery);
    forall l: nat | l in w'.workers && l != k
      ensures PhaseOk(w', w'.workers[l]) && Apart(w'.workers[l], w'.workers[k]) && Apart(w'.workers[k], w'.workers[l])
    {
      var y := w.workers[l];
      assert PhaseOk(w, y) && Apart(w.workers[k], w.workers[l]);
      if y.delivery != x.delivery { FramePhase(w, w'.db, x.delivery, y); } else { UnheldPhase(w, w'.db, y); }
      assert PhaseOk(w', y);
    }
    assert !Posted(w', |w.db.attempts|) by {
      forall i: nat | i < |w.posts| ensures w.posts[i].attempt != |w.db.attempts| { assert PostOk(w, i); }
    }
    assert BusyOk(w', w'.workers[k]);
  }

  lemma InsertKeepsBudget(w: World, w': World, d: nat, at: nat, number: nat, part: nat, m: nat)
    requires EffectBudget(w, d, part) && AttemptBudget(w, d, part, m) && w'.retries == w.retries
    requires d < |w.db.deliveries| && at == w.db.deliveries[d].nextPart && w.db.deliveries[d].status.Delivering?
      && Idle(w.db, d)
    requires w'.db == InsertAttempt(w.db, d, at, number)
    ensures EffectBudget(w', d, part) && AttemptBudget(w', d, part, m)
  {
    var n := |w.db.attempts|;
    assert Retries(w', d, part) == Retries(w, d, part) && UncertainRetries(w', d, part) == UncertainRetries(w, d, part);
    SameCount(w.db.attempts, w'.db.attempts, d, part, n);
    assert InFlight(w'.db, n) && !Idle(w'.db, d);
    assert NotFailed(w'.db, d, part) == if part == at then NotFailed(w.db, d, part) + {n} else NotFailed(w.db, d, part);
  }

  lemma StartStepKeeps(w: World, k: nat, m: nat)
    requires Inv(w, m)
    ensures Inv(StartStep(w, k), m)
  {
    if k in w.workers && w.workers[k].Looping? {
      var x := w.workers[k];
      assert PhaseOk(w, x);
      if Held(w.db, x.delivery, x.token) {
        FreshNumber(w, x);
        MoveKeeps(w, k, Starting(x.delivery, x.token, x.part, Count(w.db, x.delivery, x.part) + 1), m);
      } else {
        LeaveKeeps(w, k, m);
      }
    }
  }

  lemma FreshNumber(w: World, x: Phase)
    requires DbInv(w.db) && x.Looping? && PhaseOk(w, x) && Held(w.db, x.delivery, x.token)
    ensures StartCheck(w.db, x.delivery, x.token, x.part) == Fresh(Count(w.db, x.delivery, x.part) + 1)
    ensures PhaseOk(w, Starting(x.delivery, x.token, x.part, Count(w.db, x.delivery, x.part) + 1))
  {
    ActiveFindsInFlight(w.db, x.delivery);
    MaxIsCount(w.db, x.delivery, x.part, |w.db.attempts|);
  }

  /** While its claim stands, a drawn number is free. */
  lemma HeldNumberIsFree(w: World, k: nat)
    requires DbInv(w.db) && k in w.workers && w.workers[k].Starting? && PhaseOk(w, w.workers[k])
    requires w.workers[k].number == Count(w.db, w.workers[k].delivery, w.workers[k].part) + 1
    ensures !NumberTaken(w.db, w.workers[k].delivery, w.workers[k].part, w.workers[k].number)
  {
    var x := w.workers[k];
    forall a: nat | a < |w.db.attempts| && w.db.attempts[a].delivery == x.delivery && w.db.attempts[a].part == x.part
      ensures w.db.attempts[a].number < x.number
    {
      CountGrows(w.db.attempts, x.delivery, x.part, a + 1, |w.db.attempts|);
    }
  }

  lemma {:induction false} CountGrows(s: seq<Attempt>, d: nat, part: nat, lo: nat, hi: nat)
    requires lo <= hi <= |s|
    ensures CountPart(s, d, part, lo) <= CountPart(s, d, part, hi)
    decreases hi
  {
    if lo < hi { CountGrows(s, d, part, lo, hi - 1); }
  }

  lemma InsertStepKeeps(w: World, k: nat, m: nat)
    requires Inv(w, m) && FencedStep(w, DoInsert(k))
    ensures Inv(InsertStep(w, k), m)
  {
    LeaveKeeps(w, k, m);
    if k in w.workers && w.workers[k].Starting? {
      var x := w.workers[k];
      assert PhaseOk(w, x);
      if Held(w.db, x.delivery, x.token) {
        HeldNumberIsFree(w, k);
        LandStepKeeps(w, k, m);
      }
    }
  }

  // ----- Ending a claim -----

  /** The row of d is no longer delivering; at most one of its attempts changed, from in flight to `after`. */
  ghost predicate Ends(db: Db, db': Db, d: nat, after: AttemptStatus) {
    && Touches(db, db', d) && d < |db.deliveries| && |db'.attempts| == |db.attempts|
    && !db'.deliveries[d].status.Delivering?
    && db'.deliveries[d].claimToken.None?
    && (forall a: nat :: a < |db.attempts| && !InFlight(db, a) ==> db'.attempts[a] == db.attempts[a])
    && (forall a: nat :: a < |db.attempts| && InFlight(db, a) && db.attempts[a].delivery == d ==>
          db'.attempts[a].status == after)
  }

  lemma EndKeepsPosts(w: World, w': World, d: nat, after: AttemptStatus)
    requires PostsOk(w) && Ends(w.db, w'.db, d, after) && w'.posts == w.posts
    requires after.Failed? ==> forall a: nat :: InFlight(w.db, a) && w.db.attempts[a].delivery == d ==>
      !PostedWithEffect(w, a)
    ensures PostsOk(w')
  {
    forall i: nat | i < |w'.posts| ensures PostOk(w', i) {
      assert PostOk(w, i);
      var q := w.posts[i];
      if q.effect && InFlight(w.db, q.attempt) && w.db.attempts[q.attempt].delivery == d {
        assert PostedWithEffect(w, q.attempt);
      }
    }
  }

  /** Everyone but the worker that closed its own attempt keeps a sound view. */
  lemma EndKeepsPhase(w: World, db': Db, d: nat, after: AttemptStatus, x: Phase)
    requires Ends(w.db, db', d, after) && PhaseOk(w, x)
    requires after.Uncertain? || (x.Busy? && x.delivery == d ==> !InFlight(w.db, x.attempt))
    ensures PhaseOk(w.(db := db'), x)
  {
    if x.delivery != d { FramePhase(w, db', d, x); } else { UnheldPhase(w, db', x); }
  }

  lemma EndKeepsBudget(w: World, w': World, d: nat, after: AttemptStatus, part: nat, m: nat)
    requires EffectBudget(w, d, part) && AttemptBudget(w, d, part, m) && w'.retries == w.retries
    requires Ends(w.db, w'.db, d, after) && (after.Failed? || after.Uncertain?)
    requires w'.db.deliveries[d].nextPart == w.db.deliveries[d].nextPart && w.db.deliveries[d].status.Delivering?
    requires forall a: nat :: InFlight(w.db, a) && w.db.attempts[a].delivery == d ==>
      w.db.attempts[a].part == w.db.deliveries[d].nextPart
    requires forall a: nat, b: nat ::
               (&& InFlight(w.db, a) && InFlight(w.db, b)
                && w.db.attempts[a].delivery == d && w.db.attempts[b].delivery == d) ==> a == b
    requires w'.db.deliveries[d].status.Uncertain? <==> after.Uncertain? && !Idle(w.db, d)
    requires w'.db.deliveries[d].status.Queued? && part == w.db.deliveries[d].nextPart ==>
               CountPart(w.db.attempts, d, part, |w.db.attempts|) < m + |Retries(w, d, part)|
    ensures EffectBudget(w', d, part) && AttemptBudget(w', d, part, m)
  {
    assert Retries(w', d, part) == Retries(w, d, part) && UncertainRetries(w', d, part) == UncertainRetries(w, d, part);
    SameCount(w.db.attempts, w'.db.attempts, d, part, |w.db.attempts|);
    if after.Failed? && !Idle(w.db, d) && part == w.db.deliveries[d].nextPart {
      var a: nat :| InFlight(w.db, a) && w.db.attempts[a].delivery == d;
      assert a in NotFailed(w.db, d, part);
      assert NotFailed(w'.db, d, part) == NotFailed(w.db, d, part) - {a};
    } else {
      assert NotFailed(w'.db, d, part) == NotFailed(w.db, d, part);
    }
    assert Idle(w'.db, d);
  }

  /** The in-flight attempt carries the highest number of its part. */
  lemma InFlightIsLast(db: Db, a: nat)
    requires DbInv(db) && InFlight(db, a)
    ensures CountPart(db.attempts, db.attempts[a].delivery, db.attempts[a].part, |db.attempts|) == db.attempts[a].number
  {
    assert InFlightOk(db, a);
    var t := db.attempts[a];
    assert t.number == CountPart(db.attempts, t.delivery, t.part, a + 1);
    NoneLater(db.attempts, t.delivery, t.part, a + 1, |db.attempts|);
  }

  lemma {:induction false} NoneLater(s: seq<Attempt>, d: nat, part: nat, lo: nat, hi: nat)
    requires lo <= hi <= |s|
    requires forall b: nat :: lo <= b < hi ==> s[b].delivery != d
    ensures CountPart(s, d, part, hi) == CountPart(s, d, part, lo)
  {
    if lo < hi { NoneLater(s, d, part, lo, hi - 1); }
  }

  lemma RecoverStepKeeps(w: World, s: nat, channel: string, cutoff: Time, at: Time, m: nat)
    requires Inv(w, m) && LooksOk(w) && FencedStep(w, DoRecover(s, channel, cutoff, at))
    ensures Inv(RecoverStep(w, s, channel, cutoff, at), m)
  {
    if s in w.looks && w.looks[s].AtClaim? {
      var look := w.looks[s].claim;
      LooksAside(w, w.looks - {s}, m);
      if RecoverCommit(w.db, look, channel, cutoff, at).Committed? {
        CurrentRecovery(w.db, look, channel, cutoff, at);
        RecoveredKeeps(w.(looks := w.looks - {s}), look.delivery, channel, cutoff, at, m);
      }
    }
  }

  lemma RecoveredKeeps(w: World, d: nat, channel: string, cutoff: Time, at: Time, m: nat)
    requires Inv(w, m)
    ensures Inv(Settle(w, Recover(w.db, d, channel, cutoff, at)), m)
  {
    var t := Recover(w.db, d, channel, cutoff, at);
    RecoverKeeps(w.db, d, channel, cutoff, at);
    if t.Committed? {
      var w' := w.(db := t.db);
      ActiveFindsInFlight(w.db, d);
      RecoverEnds(w.db, d, channel, cutoff, at);
      EndKeepsPosts(w, w', d, AttemptStatus.Uncertain);
      forall l: nat | l in w'.workers ensures PhaseOk(w', w'.workers[l]) {
        assert PhaseOk(w, w.workers[l]);
        EndKeepsPhase(w, w'.db, d, AttemptStatus.Uncertain, w.workers[l]);
      }
      forall a: nat | InFlight(w.db, a) && w.db.attempts[a].delivery == d
        ensures w.db.attempts[a].part == w.db.deliveries[d].nextPart
      {
        assert InFlightOk(w.db, a);
      }
      forall e: nat, part: nat ensures EffectBudget(w', e, part) && AttemptBudget(w', e, part, m) {
        if e != d { FrameBudget(w, w', d, e, part, m); } else {
          assert EffectBudget(w, d, part) && AttemptBudget(w, d, part, m);
          EndKeepsBudget(w, w', d, AttemptStatus.Uncertain, part, m);
        }
      }
    }
  }

  lemma RecoverEnds(db: Db, d: nat, channel: string, cutoff: Time, at: Time)
    requires DbInv(db) && Recover(db, d, channel, cutoff, at).Committed?
    ensures var db' := Recover(db, d, channel, cutoff, at).db;
            && Ends(db, db', d, AttemptStatus.Uncertain)
            && db'.deliveries[d].nextPart == db.deliveries[d].nextPart
            && (db'.deliveries[d].status.Uncertain? || (Idle(db, d) && db'.deliveries[d].status.Queued?))
  {
    ActiveFindsInFlight(db, d);
    forall a: nat | InFlight(db, a) && db.attempts[a].delivery == d
      ensures ActiveAttempt(db, d, db.deliveries[d].nextPart) == Some(a)
    {
      assert InFlightOk(db, a);
      var b := ActiveAttempt(db, d, db.deliveries[d].nextPart).value;
      assert InFlightOk(db, b);
    }
  }

  lemma FinishEnds(db: Db, d: nat, token: Token, a: nat, how: Closing, error: string, now: Time)
    requires DbInv(db) && FinishAttempt(db, d, token, a, how, error, now).Committed?
    ensures var db' := FinishAttempt(db, d, token, a, how, error, now).db;
            var after := if how.Quarantine? then AttemptStatus.Uncertain else AttemptStatus.Failed;
            && Ends(db, db', d, after)
            && InFlight(db, a) && db.attempts[a].delivery == d
            && db'.deliveries[d].nextPart == db.deliveries[d].nextPart && db.deliveries[d].status.Delivering?
            && (how.Quarantine? <==> db'.deliveries[d].status.Uncertain?)
            && (db'.deliveries[d].status.Queued? ==> how.Requeue?)
            && (forall b: nat :: InFlight(db, b) && db.attempts[b].delivery == d ==> b == a)
  {
    assert InFlightOk(db, a);
    forall b: nat | InFlight(db, b) && db.attempts[b].delivery == d ensures b == a {
      assert InFlightOk(db, b);
    }
  }

  lemma RecordFailureStepKeeps(w: World, k: nat, code: string, retryAt: Time, at: Time, m: nat)
    requires Inv(w, m)
    ensures Inv(RecordFailureStep(w, k, code, retryAt, at, m), m)
  {
    LeaveKeeps(w, k, m);
    if k in w.workers && w.workers[k].Busy? && w.workers[k].stage.Failing? {
      var x := w.workers[k];
      var how := ClosingFor(x.stage.error, x.number, m, retryAt);
      var t := FinishAttempt(w.db, x.delivery, x.token, x.attempt, how, code, at);
      assert PhaseOk(w, x);
      FinishKeeps(w.db, x.delivery, x.token, x.attempt, how, code, at);
      if t.Committed? {
        FinishEnds(w.db, x.delivery, x.token, x.attempt, how, code, at);
        FinishKeepsRest(w, k, t.db, how, m);
      }
    }
  }

  /** The worker's attempt, the only one in flight, is closed and the claim is over. */
  ghost predicate Closed(db: Db, db': Db, x: Phase, how: Closing)
    requires x.Busy?
  {
    && Ends(db, db', x.delivery, if how.Quarantine? then AttemptStatus.Uncertain else AttemptStatus.Failed)
    && InFlight(db, x.attempt) && db.attempts[x.attempt].delivery == x.delivery
    && db'.deliveries[x.delivery].nextPart == db.deliveries[x.delivery].nextPart
    && db.deliveries[x.delivery].status.Delivering?
    && (how.Quarantine? <==> db'.deliveries[x.delivery].status.Uncertain?)
    && (db'.deliveries[x.delivery].status.Queued? ==> how.Requeue?)
    && (forall b: nat :: InFlight(db, b) && db.attempts[b].delivery == x.delivery ==> b == x.attempt)
  }

  lemma FinishKeepsBudgets(w: World, w': World, x: Phase, how: Closing, m: nat)
    requires Budgets(w, m) && DbInv(w.db) && x.Busy? && Closed(w.db, w'.db, x, how) && w'.retries == w.retries
    requires x.number == w.db.attempts[x.attempt].number && (how.Requeue? ==> x.number < m)
    ensures Budgets(w', m)
  {
    var d := x.delivery;
    var after := if how.Quarantine? then AttemptStatus.Uncertain else AttemptStatus.Failed;
    assert InFlightOk(w.db, x.attempt);
    InFlightIsLast(w.db, x.attempt);
    forall e: nat, part: nat ensures EffectBudget(w', e, part) && AttemptBudget(w', e, part, m) {
      if e != d { FrameBudget(w, w', d, e, part, m); } else {
        assert EffectBudget(w, d, part) && AttemptBudget(w, d, part, m);
        EndKeepsBudget(w, w', d, after, part, m);
      }
    }
  }

  lemma FinishKeepsRest(w: World, k: nat, db': Db, how: Closing, m: nat)
    requires Inv(w, m) && DbInv(db') && k in w.workers && w.workers[k].Busy? && w.workers[k].stage.Failing?
    requires how.Requeue? ==> w.workers[k].number < m
    requires !how.Quarantine? ==> Classify(w.workers[k].stage.error) != FailureKind.Uncertain
    requires Closed(w.db, db', w.workers[k], how)
    ensures Inv(Leave(w.(db := db'), k), m)
  {
    var x := w.workers[k];
    var d := x.delivery;
    var after := if how.Quarantine? then AttemptStatus.Uncertain else AttemptStatus.Failed;
    var w' := Leave(w.(db := db'), k);
    assert PhaseOk(w, x);
    assert InFlightOk(w.db, x.attempt);
    EndKeepsPosts(w, w', d, after);
    forall l: nat | l in w'.workers ensures PhaseOk(w', w'.workers[l]) {
      var y := w.workers[l];
      assert PhaseOk(w, y) && Apart(w.workers[k], w.workers[l]);
      EndKeepsPhase(w, db', d, after, y);
      assert PhaseOk(w.(db := db'), y);
    }
    FinishKeepsBudgets(w, w', x, how, m);
  }

  // ----- Manual retry -----

  lemma RetryStepKeeps(w: World, s: nat, at: Time, m: nat)
    requires Inv(w, m) && LooksOk(w) && FencedStep(w, DoRetry(s, at))
    ensures Inv(RetryStep(w, s, at), m)
  {
    if s in w.looks && w.looks[s].AtStop? {
      var look := w.looks[s].stop;
      LooksAside(w, w.looks - {s}, m);
      if RetryCommit(w.db, look, at).Committed? {
        CurrentRetry(w.db, look, at);
        RetriedKeeps(w.(looks := w.looks - {s}), look.delivery, look.status.Uncertain?, at, m);
      }
    }
  }

  lemma RetriedKeeps(w: World, d: nat, allowUncertain: bool, at: Time, m: nat)
    requires Inv(w, m)
    ensures Inv(Retried(w, d, Retry(w.db, d, allowUncertain, at)), m)
  {
    var t := Retry(w.db, d, allowUncertain, at);
    RetryKeeps(w.db, d, allowUncertain, at);
    if t.Committed? {
      var w' := Retried(w, d, t);
      forall a: nat | InFlight(w.db, a) ensures w.db.attempts[a].delivery != d { assert InFlightOk(w.db, a); }
      assert Ends(w.db, w'.db, d, AttemptStatus.Uncertain);
      EndKeepsPosts(w, w', d, AttemptStatus.Uncertain);
      forall l: nat | l in w'.workers ensures PhaseOk(w', w'.workers[l]) {
        assert PhaseOk(w, w.workers[l]);
        EndKeepsPhase(w, w'.db, d, AttemptStatus.Uncertain, w.workers[l]);
        assert PhaseOk(w.(db := w'.db), w.workers[l]);
      }
      forall e: nat, part: nat ensures EffectBudget(w', e, part) && AttemptBudget(w', e, part, m) {
        assert EffectBudget(w, e, part) && AttemptBudget(w, e, part, m);
        RetryKeepsBudget(w, w', w'.retries[|w.retries|], e, part, m);
      }
    }
  }

  lemma RetryKeepsBudget(w: World, w': World, q: ManualRetry, e: nat, part: nat, m: nat)
    requires EffectBudget(w, e, part) && AttemptBudget(w, e, part, m)
    requires w'.retries == w.retries + [q] && Ends(w.db, w'.db, q.delivery, AttemptStatus.Uncertain)
      && Idle(w.db, q.delivery)
    requires w.db.deliveries[q.delivery].nextPart == q.part == w'.db.deliveries[q.delivery].nextPart
    requires q.fromUncertain <==> w.db.deliveries[q.delivery].status.Uncertain?
    requires w'.db.deliveries[q.delivery].status.Queued?
    ensures EffectBudget(w', e, part) && AttemptBudget(w', e, part, m)
  {
    var n := |w.retries|;
    assert w'.db.attempts == w.db.attempts;
    assert NotFailed(w'.db, e, part) == NotFailed(w.db, e, part);
    assert Idle(w'.db, e) <==> Idle(w.db, e);
    if q.delivery == e && q.part == part {
      assert Retries(w', e, part) == Retries(w, e, part) + {n};
      if q.fromUncertain {
        assert UncertainRetries(w', e, part) == UncertainRetries(w, e, part) + {n};
      } else {
        assert UncertainRetries(w', e, part) == UncertainRetries(w, e, part);
      }
    } else {
      assert Retries(w', e, part) == Retries(w, e, part)
        && UncertainRetries(w', e, part) == UncertainRetries(w, e, part);
    }
  }

  // ----- Receipt -----

  lemma {:induction false} NoneCounted(s: seq<Attempt>, d: nat, part: nat, n: nat)
    requires n <= |s| && forall a: nat :: a < n ==> s[a].delivery != d || s[a].part != part
    ensures CountPart(s, d, part, n) == 0
  {
    if n > 0 { NoneCounted(s, d, part, n - 1); }
  }

  /** A part without attempts has both budgets in full. */
  lemma UntouchedPart(w: World, d: nat, part: nat, m: nat)
    requires !Taken(w.db, d, part) && UncertainRetries(w, d, part) == {}
    requires 0 < m && forall a: nat :: a < |w.db.attempts| ==>
      w.db.attempts[a].delivery != d || w.db.attempts[a].part != part
    ensures EffectBudget(w, d, part) && AttemptBudget(w, d, part, m)
  {
    NoneCounted(w.db.attempts, d, part, |w.db.attempts|);
    assert NotFailed(w.db, d, part) == {};
  }

  /** A part that was never started has never been retried. */
  lemma NoRetriesYet(w: World, d: nat, part: nat)
    requires EffectBudget(w, d, part)
    requires forall a: nat :: a < |w.db.attempts| ==> w.db.attempts[a].delivery != d || w.db.attempts[a].part != part
    ensures UncertainRetries(w, d, part) == {}
  {
    assert NotFailed(w.db, d, part) == {};
  }

  /** What one committed receipt leaves behind, as seen by the rest of the protocol. */
  ghost predicate Receipted(db: Db, db': Db, x: Phase)
    requires x.Busy?
  {
    && Touches(db, db', x.delivery) && x.delivery < |db.deliveries|
    && x.attempt < |db.attempts| == |db'.attempts|
    && InFlight(db, x.attempt) && db.attempts[x.attempt].delivery == x.delivery && db.attempts[x.attempt].part == x.part
    && db'.attempts[x.attempt].status.Delivered?
    && (forall a: nat :: a < |db.attempts| && a != x.attempt ==> db'.attempts[a] == db.attempts[a])
    && db'.deliveries[x.delivery].nextPart == x.part + 1 == db.deliveries[x.delivery].nextPart + 1
    && Held(db, x.delivery, x.token)
    && (Held(db', x.delivery, x.token) <==> db'.deliveries[x.delivery].status.Delivering?)
    && (db'.deliveries[x.delivery].claimToken.Some? ==> db'.deliveries[x.delivery].claimToken == Some(x.token))
    && !db'.deliveries[x.delivery].status.Uncertain?
    && Idle(db', x.delivery)
  }

  lemma MarkReceipts(w: World, x: Phase, payload: string, at: Time)
    requires DbInv(w.db) && x.Busy?
      && MarkPartDelivered(w.db, x.delivery, x.token, x.attempt, x.part, payload, at).Committed?
    ensures Receipted(w.db, MarkPartDelivered(w.db, x.delivery, x.token, x.attempt, x.part, payload, at).db, x)
  {
    MarkKeeps(w.db, x.delivery, x.token, x.attempt, x.part, payload, at);
  }

  lemma ReceiptKeepsOthers(w: World, w': World, k: nat, l: nat)
    requires WorkersOk(w) && k in w.workers && w.workers[k].Busy? && l in w.workers && l != k
    requires w'.posts == w.posts && w'.used == w.used && Receipted(w.db, w'.db, w.workers[k])
    ensures PhaseOk(w', w.workers[l])
  {
    var x, y := w.workers[k], w.workers[l];
    assert PhaseOk(w, x) && PhaseOk(w, y) && Apart(x, y);
    if y.delivery != x.delivery { FramePhase(w, w'.db, x.delivery, y); } else { UnheldPhase(w, w'.db, y); }
    assert PhaseOk(w.(db := w'.db), y);
  }

  lemma ReceiptKeepsRest(w: World, w': World, k: nat, m: nat)
    requires Inv(w, m) && 0 < m && k in w.workers && w.workers[k].Busy?
    requires SameHistory(w, w') && Receipted(w.db, w'.db, w.workers[k]) && DbInv(w'.db)
    ensures PostsOk(w') && Budgets(w', m)
  {
    var x := w.workers[k];
    var d := x.delivery;
    forall i: nat | i < |w'.posts| ensures PostOk(w', i) { assert PostOk(w, i); }
    forall e: nat, part: nat ensures EffectBudget(w', e, part) && AttemptBudget(w', e, part, m) {
      if e != d { FrameBudget(w, w', d, e, part, m); } else {
        assert EffectBudget(w, d, part) && AttemptBudget(w, d, part, m);
        if part == x.part + 1 {
          forall a: nat | a < |w'.db.attempts|
            ensures w'.db.attempts[a].delivery != d || w'.db.attempts[a].part != part
          {
            assert AttemptOk(w.db, a);
          }
          NoRetriesYet(w, d, part);
          assert UncertainRetries(w', d, part) == UncertainRetries(w, d, part);
          UntouchedPart(w', d, part, m);
        } else {
          assert NotFailed(w'.db, d, part) == NotFailed(w.db, d, part);
          assert Retries(w', d, part) == Retries(w, d, part)
            && UncertainRetries(w', d, part) == UncertainRetries(w, d, part);
          SameCount(w.db.attempts, w'.db.attempts, d, part, |w.db.attempts|);
        }
      }
    }
  }

  /** The receipt has landed; the worker moves on to `after`, or leaves when the claim has ended. */
  lemma LandedKeeps(w: World, w': World, k: nat, after: Option<Phase>, m: nat)
    requires Inv(w, m) && 0 < m && k in w.workers && w.workers[k].Busy?
    requires SameHistory(w, w') && w'.used == w.used && Receipted(w.db, w'.db, w.workers[k]) && DbInv(w'.db)
    requires w'.workers == if after.Some? then w.workers[k := after.value] else w.workers - {k}
    requires after.Some? ==> after.value.token == w.workers[k].token && PhaseOk(w', after.value)
                             && (after.value.Busy? ==> after.value.attempt == w.workers[k].attempt)
    ensures Inv(w', m)
  {
    ReceiptKeepsRest(w, w', k, m);
    forall l: nat | l in w'.workers ensures PhaseOk(w', w'.workers[l]) {
      if l != k { ReceiptKeepsOthers(w, w', k, l); }
    }
    forall l: nat, j: nat | l in w'.workers && j in w'.workers && l != j ensures Apart(w'.workers[l], w'.workers[j]) {
      assert Apart(w.workers[l], w.workers[j]);
    }
  }

  lemma MarkedKeeps(w: World, k: nat, payload: string, at: Time, report: CommitReport, m: nat)
    requires Inv(w, m) && 0 < m && k in w.workers && w.workers[k].Busy? && w.workers[k].stage.Accepted?
      && !report.LostAndRaised?
    requires var x := w.workers[k];
      MarkPartDelivered(w.db, x.delivery, x.token, x.attempt, x.part, payload, at).Committed?
    ensures Inv(MarkStep(w, k, payload, at, report), m)
  {
    var x := w.workers[k];
    var w' := MarkStep(w, k, payload, at, report);
    assert PhaseOk(w, x);
    MarkKeeps(w.db, x.delivery, x.token, x.attempt, x.part, payload, at);
    MarkReceipts(w, x, payload, at);
    var after := if k in w'.workers then Some(w'.workers[k]) else None;
    LandedKeeps(w, w', k, after, m);
  }

  lemma MarkStepKeeps(w: World, k: nat, payload: string, at: Time, report: CommitReport, m: nat)
    requires Inv(w, m) && 0 < m
    ensures Inv(MarkStep(w, k, payload, at, report), m)
  {
    if k in w.workers && w.workers[k].Busy? && w.workers[k].stage.Accepted? {
      var x := w.workers[k];
      assert PhaseOk(w, x);
      if MarkPartDelivered(w.db, x.delivery, x.token, x.attempt, x.part, payload, at).Committed?
        && !report.LostAndRaised? {
        MarkedKeeps(w, k, payload, at, report, m);
      } else {
        MoveKeeps(w, k, x.(stage := Unsure), m);
      }
    }
  }

  // ----- Enqueue -----

  lemma EnqueueStepKeeps(w: World, rid: string, n: nat, channel: string, account: string, conversation: string,
                         at: Time, m: nat)
    requires Inv(w, m) && 0 < m
    ensures Inv(Settle(w, Enqueue(w.db, rid, n, channel, account, conversation, at)), m)
  {
    var t := Enqueue(w.db, rid, n, channel, account, conversation, at);
    EnqueueKeeps(w.db, rid, n, channel, account, conversation, at);
    if t.Committed? {
      var w' := w.(db := t.db);
      forall l: nat | l in w'.workers ensures PhaseOk(w', w'.workers[l]) {
        assert PhaseOk(w, w.workers[l]);
        assert Idle(w.db, w.workers[l].delivery) ==> Idle(w'.db, w.workers[l].delivery);
      }
      forall i: nat | i < |w'.posts| ensures PostOk(w', i) { assert PostOk(w, i); }
      forall e: nat, part: nat ensures EffectBudget(w', e, part) && AttemptBudget(w', e, part, m) {
        assert EffectBudget(w, e, part) && AttemptBudget(w, e, part, m);
        if e == |w.db.deliveries| {
          forall a: nat | a < |w'.db.attempts| ensures w'.db.attempts[a].delivery != e { assert AttemptOk(w.db, a); }
          NoRetriesYet(w, e, part);
          assert UncertainRetries(w', e, part) == UncertainRetries(w, e, part);
          UntouchedPart(w', e, part, m);
        } else {
          assert NotFailed(w'.db, e, part) == NotFailed(w.db, e, part);
          assert Retries(w', e, part) == Retries(w, e, part)
            && UncertainRetries(w', e, part) == UncertainRetries(w, e, part);
          assert Idle(w'.db, e) ==> Idle(w.db, e);
        }
      }
    }
  }

  // ----- Every step, every run -----

  predicate OnTables(act: Action) {
    act.DoEnqueue? || act.DoClaim? || act.DoLookRecover? || act.DoRecover? || act.DoLookRetry? || act.DoRetry?
  }

  lemma TableStepKeeps(w: World, act: Action, m: nat, w': World)
    requires Inv(w, m) && LooksOk(w) && 0 < m && FencedStep(w, act) && OnTables(act) && w' == Step(w, act, m)
    ensures Inv(w', m)
  {
    match act
    case DoEnqueue(rid, n, channel, account, conversation, at) => EnqueueStepKeeps(w, rid, n, channel, account,
      conversation, at, m);
    case DoClaim(k, d, channel, token, at) => ClaimStepKeeps(w, k, d, channel, token, at, m);
    case DoLookRecover(s, d) => LooksAside(w, w'.looks, m);
    case DoRecover(s, channel, cutoff, at) => RecoverStepKeeps(w, s, channel, cutoff, at, m);
    case DoLookRetry(s, d, allow) => LooksAside(w, w'.looks, m);
    case DoRetry(s, at) => RetryStepKeeps(w, s, at, m);
  }

  lemma WorkerStepKeeps(w: World, act: Action, m: nat, w': World)
    requires Inv(w, m) && 0 < m && FencedStep(w, act) && !OnTables(act) && w' == Step(w, act, m)
    ensures Inv(w', m)
  {
    match act
    case DoStart(k) => StartStepKeeps(w, k, m);
    case DoInsert(k) => InsertStepKeeps(w, k, m);
    case DoPreSendFailure(k, e) => PreSendFailureStepKeeps(w, k, e, m);
    case DoSend(k, content, account, reply) => SendStepKeeps(w, k, content, account, reply, m);
    case DoMark(k, payload, at, report) => MarkStepKeeps(w, k, payload, at, report, m);
    case DoResolve(k) => ResolveStepKeeps(w, k, m);
    case DoRecordFailure(k, code, retryAt, at) => RecordFailureStepKeeps(w, k, code, retryAt, at, m);
  }

  lemma StepKeeps(w: World, act: Action, m: nat)
    requires Sound(w, m) && 0 < m && FencedStep(w, act)
    ensures Sound(Step(w, act, m), m)
  {
    if OnTables(act) {
      TableStepKeeps(w, act, m, Step(w, act, m));
    } else {
      WorkerStepKeeps(w, act, m, Step(w, act, m));
    }
    StepKeepsLooks(w, act, m, Step(w, act, m));
    StepKeepsAttended(w, act, m, Step(w, act, m));
    StepKeepsParts(w, act, m, Step(w, act, m));
  }

  lemma {:induction false} RunKeeps(w: World, acts: seq<Action>, m: nat)
    requires Sound(w, m) && 0 < m && FencedRun(w, acts, m)
    ensures Sound(Run(w, acts, m), m)
    decreases |acts|
  {
    if acts != [] {
      StepKeeps(w, acts[0], m);
      RunKeeps(Step(w, acts[0], m), acts[1..], m);
    }
  }

  lemma InitialInv(m: nat)
    requires 0 < m
    ensures Sound(INITIAL, m)
  {
    forall d: nat, part: nat ensures EffectBudget(INITIAL, d, part) && AttemptBudget(INITIAL, d, part, m) {
      UntouchedPart(INITIAL, d, part, m);
    }
  }

  // ----- Rows are only added, and keep what identifies them -----

  ghost predicate Grows(db: Db, db': Db) {
    && |db.deliveries| <= |db'.deliveries| && |db.attempts| <= |db'.attempts|
    && (forall d: nat :: d < |db.deliveries| ==>
          && db'.deliveries[d].responseId == db.deliveries[d].responseId
          && db'.deliveries[d].accountId == db.deliveries[d].accountId
          && db.deliveries[d].nextPart <= db'.deliveries[d].nextPart)
    && (forall a: nat :: a < |db.attempts| ==> db'.attempts[a].delivery == db.attempts[a].delivery)
    && (forall rid :: rid in db.responses ==>
          rid in db'.responses && db'.responses[rid].partCount == db.responses[rid].partCount)
  }

  lemma ClaimGrows(db: Db, d: nat, channel: string, token: Token, at: Time)
    ensures var t := Claim(db, d, channel, token, at); t.Committed? ==> Grows(db, t.db)
  {}

  lemma RecoverGrows(db: Db, look: ClaimLook, channel: string, cutoff: Time, at: Time)
    ensures var t := RecoverCommit(db, look, channel, cutoff, at); t.Committed? ==> Grows(db, t.db)
  {}

  lemma MarkGrows(db: Db, d: nat, token: Token, a: nat, part: nat, payload: string, at: Time)
    ensures var t := MarkPartDelivered(db, d, token, a, part, payload, at); t.Committed? ==> Grows(db, t.db)
  {}

  lemma FinishGrows(db: Db, d: nat, token: Token, a: nat, how: Closing, code: string, at: Time)
    ensures var t := FinishAttempt(db, d, token, a, how, code, at); t.Committed? ==> Grows(db, t.db)
  {}

  lemma RetryGrows(db: Db, look: StopLook, at: Time)
    ensures var t := RetryCommit(db, look, at); t.Committed? ==> Grows(db, t.db)
  {}

  lemma WorkerStepGrows(w: World, act: Action, m: nat, w': World)
    requires !OnTables(act) && w' == Step(w, act, m)
    ensures Grows(w.db, w'.db) && w'.looks == w.looks
  {
    match act
    case DoMark(k, payload, at, report) =>
      if k in w.workers && w.workers[k].Busy? {
        var x := w.workers[k];
        MarkGrows(w.db, x.delivery, x.token, x.attempt, x.part, payload, at);
      }
    case DoRecordFailure(k, code, retryAt, at) =>
      if k in w.workers && w.workers[k].Busy? && w.workers[k].stage.Failing? {
        var x := w.workers[k];
        FinishGrows(w.db, x.delivery, x.token, x.attempt, ClosingFor(x.stage.error, x.number, m, retryAt), code, at);
      }
    case _ =>
  }

  /** Steps of sessions: at most one look is added, by its own session. */
  ghost predicate LooksFrom(w: World, w': World) {
    forall s: nat :: s in w'.looks ==>
      || (s in w.looks && w'.looks[s] == w.looks[s])
      || (match w'.looks[s]
          case AtClaim(look) => LookOk(w'.db, look) && look.token in w'.used
          case AtStop(look) => StopOk(w'.db, look))
  }

  lemma TableStepLooks(w: World, act: Action, m: nat, w': World)
    requires OnTables(act) && w' == Step(w, act, m) && TokensUsed(w)
    ensures LooksFrom(w, w')
  {
  }

  lemma UsedGrows(w: World, act: Action, m: nat)
    ensures w.used <= Step(w, act, m).used
  {
  }

  lemma TableStepGrows(w: World, act: Action, m: nat, w': World)
    requires OnTables(act) && w' == Step(w, act, m)
    ensures Grows(w.db, w'.db)
  {
    match act
    case DoEnqueue(rid, n, channel, account, conversation, at) =>
    case DoClaim(k, d, channel, token, at) => ClaimGrows(w.db, d, channel, token, at);
    case DoRecover(s, channel, cutoff, at) =>
      if s in w.looks && w.looks[s].AtClaim? { RecoverGrows(w.db, w.looks[s].claim, channel, cutoff, at); }
    case DoRetry(s, at) => if s in w.looks && w.looks[s].AtStop? { RetryGrows(w.db, w.looks[s].stop, at); }
    case _ =>
  }

  lemma StepGrows(w: World, act: Action, m: nat)
    ensures Grows(w.db, Step(w, act, m).db)
  {
    if OnTables(act) {
      TableStepGrows(w, act, m, Step(w, act, m));
    } else {
      WorkerStepGrows(w, act, m, Step(w, act, m));
    }
  }

  lemma LooksStay(w: World, w': World)
    requires LooksOk(w) && Grows(w.db, w'.db) && LooksFrom(w, w') && w.used <= w'.used
    ensures LooksOk(w')
  {
  }

  lemma StepKeepsLooks(w: World, act: Action, m: nat, w': World)
    requires LooksOk(w) && TokensUsed(w) && w' == Step(w, act, m)
    ensures LooksOk(w')
  {
    StepGrows(w, act, m);
    UsedGrows(w, act, m);
    if OnTables(act) { TableStepLooks(w, act, m, w'); } else { WorkerStepGrows(w, act, m, w'); }
    LooksStay(w, w');
  }

  lemma StepKeepsParts(w: World, act: Action, m: nat, w': World)
    requires Inv(w, m) && PartsExist(w) && w' == Step(w, act, m)
    ensures PartsExist(w')
  {
    StepGrows(w, act, m);
    forall k: nat | k in w'.workers && w'.workers[k].Starting?
      ensures HasPart(w'.db, w'.workers[k].delivery, w'.workers[k].part)
    {
      StartersHaveParts(w, act, m, w', k);
    }
  }

  lemma StartersHaveParts(w: World, act: Action, m: nat, w': World, k: nat)
    requires Inv(w, m) && PartsExist(w) && w' == Step(w, act, m) && k in w'.workers && w'.workers[k].Starting?
    ensures HasPart(w.db, w'.workers[k].delivery, w'.workers[k].part)
  {
    if OnTables(act) {
      TablesStartNothing(w, act, m, w', k);
    } else if k != act.worker {
      OthersGoOn(w, act, m, k);
    } else if act.DoStart? {
      StarterHasPart(w, k);
    } else {
      OnlyStartStarts(w, act, m);
    }
  }

  lemma StarterHasPart(w: World, k: nat)
    requires DbInv(w.db) && WorkersOk(w) && PartsExist(w)
    ensures var w' := StartStep(w, k);
      k in w'.workers && w'.workers[k].Starting? ==> HasPart(w.db, w'.workers[k].delivery, w'.workers[k].part)
  {
    if k in w.workers {
      assert PhaseOk(w, w.workers[k]);
      assert RowOk(w.db, w.workers[k].delivery);
    }
  }

  lemma TablesStartNothing(w: World, act: Action, m: nat, w': World, k: nat)
    requires OnTables(act) && w' == Step(w, act, m) && k in w'.workers && w'.workers[k].Starting?
    ensures k in w.workers && w.workers[k] == w'.workers[k]
  {
    if !act.DoClaim? { SessionsClaimNothing(w, act, m, w'); }
  }

  lemma OnlyStartStarts(w: World, act: Action, m: nat)
    requires !OnTables(act) && !act.DoStart?
    ensures var w' := Step(w, act, m);
      act.worker in w'.workers && w'.workers[act.worker].Starting? ==>
        act.worker in w.workers && w.workers[act.worker] == w'.workers[act.worker]
  {
  }

  // ----- Claims and their workers -----

  /** Claims are not new, and whoever leaves had lost its claim. */
  lemma StaysAttended(w: World, w': World)
    requires Attended(w)
    requires forall d: nat :: d < |w'.db.deliveries| && w'.db.deliveries[d].claimToken.Some? ==>
               d < |w.db.deliveries| && w'.db.deliveries[d].claimToken == w.db.deliveries[d].claimToken
    requires forall k: nat :: k in w.workers ==>
               || (k in w'.workers && w'.workers[k].delivery == w.workers[k].delivery
                     && w'.workers[k].token == w.workers[k].token)
               || (w.workers[k].delivery < |w'.db.deliveries|
                   && w'.db.deliveries[w.workers[k].delivery].claimToken != Some(w.workers[k].token))
    ensures Attended(w')
  {
    forall d: nat | d < |w'.db.deliveries| && w'.db.deliveries[d].claimToken.Some?
      ensures Holder(w', d, w'.db.deliveries[d].claimToken.value)
    {
      var token := w'.db.deliveries[d].claimToken.value;
      assert Holder(w, d, token);
      var k: nat :| k in w.workers && w.workers[k].delivery == d && w.workers[k].token == token;
    }
  }

  lemma ClaimIsAttended(w: World, k: nat, d: nat, channel: string, token: Token, at: Time)
    requires Attended(w)
    ensures Attended(ClaimStep(w, k, d, channel, token, at))
  {
    var w' := ClaimStep(w, k, d, channel, token, at);
    forall e: nat | e < |w'.db.deliveries| && w'.db.deliveries[e].claimToken.Some?
      ensures Holder(w', e, w'.db.deliveries[e].claimToken.value)
    {
      if w' != w && e == d {
        assert w'.workers[k].delivery == d && w'.workers[k].token == token;
      } else {
        assert Holder(w, e, w.db.deliveries[e].claimToken.value);
        var l: nat :| l in w.workers && w.workers[l].delivery == e
          && w.workers[l].token == w.db.deliveries[e].claimToken.value;
        assert l in w'.workers && w'.workers[l] == w.workers[l];
      }
    }
  }

  lemma StepKeepsAttended(w: World, act: Action, m: nat, w': World)
    requires Inv(w, m) && Attended(w) && w' == Step(w, act, m)
    ensures Attended(w')
  {
    if act.DoClaim? {
      ClaimIsAttended(w, act.worker, act.delivery, act.channel, act.token, act.at);
    } else if OnTables(act) {
      SessionsClaimNothing(w, act, m, w');
      StaysAttended(w, w');
    } else {
      WorkerStaysAttended(w, act, m, w');
    }
  }

  lemma SessionsClaimNothing(w: World, act: Action, m: nat, w': World)
    requires OnTables(act) && !act.DoClaim? && w' == Step(w, act, m)
    ensures w'.workers == w.workers
    ensures forall d: nat :: d < |w'.db.deliveries| && w'.db.deliveries[d].claimToken.Some? ==>
              d < |w.db.deliveries| && w'.db.deliveries[d].claimToken == w.db.deliveries[d].claimToken
  {
  }

  /** A worker keeps its delivery and its token until it leaves, and leaves only without a claim. */
  ghost predicate GoesOn(w: World, w': World, k: nat)
    requires k in w.workers
  {
    var x := w.workers[k];
    || (k in w'.workers && w'.workers[k].delivery == x.delivery && w'.workers[k].token == x.token)
    || (x.delivery < |w'.db.deliveries| && w'.db.deliveries[x.delivery].claimToken != Some(x.token))
  }

  ghost predicate NoNewClaims(db: Db, db': Db) {
    forall d: nat :: d < |db'.deliveries| && db'.deliveries[d].claimToken.Some? ==>
      d < |db.deliveries| && db'.deliveries[d].claimToken == db.deliveries[d].claimToken
  }

  lemma MarkGoesOn(w: World, k: nat, payload: string, at: Time, report: CommitReport)
    requires DbInv(w.db) && k in w.workers
    ensures var w' := MarkStep(w, k, payload, at, report); GoesOn(w, w', k) && NoNewClaims(w.db, w'.db)
  {
    if w.workers[k].Busy? && w.workers[k].stage.Accepted? {
      var x := w.workers[k];
      if MarkPartDelivered(w.db, x.delivery, x.token, x.attempt, x.part, payload, at).Committed? {
        MarkReceipts(w, x, payload, at);
      }
    }
  }

  lemma FailureGoesOn(w: World, k: nat, code: string, retryAt: Time, at: Time, m: nat)
    requires DbInv(w.db) && k in w.workers && PhaseOk(w, w.workers[k])
    ensures var w' := RecordFailureStep(w, k, code, retryAt, at, m); GoesOn(w, w', k) && NoNewClaims(w.db, w'.db)
  {
    var x := w.workers[k];
    if x.Busy? && x.stage.Failing? {
      FinishKeeps(w.db, x.delivery, x.token, x.attempt, ClosingFor(x.stage.error, x.number, m, retryAt), code, at);
      assert InFlightOk(w.db, x.attempt);
      assert RowOk(w.db, x.delivery);
    }
  }

  lemma ResolveGoesOn(w: World, k: nat)
    requires DbInv(w.db) && k in w.workers && PhaseOk(w, w.workers[k])
    ensures GoesOn(w, ResolveStep(w, k), k)
  {
    assert RowOk(w.db, w.workers[k].delivery);
  }

  lemma StartGoesOn(w: World, k: nat)
    requires DbInv(w.db) && k in w.workers && PhaseOk(w, w.workers[k])
    ensures GoesOn(w, StartStep(w, k), k) && GoesOn(w, InsertStep(w, k), k)
  {
    var x := w.workers[k];
    assert RowOk(w.db, x.delivery);
    if x.Starting? && Held(w.db, x.delivery, x.token) { HeldNumberIsFree(w, k); }
  }

  lemma SenderGoesOn(w: World, act: Action, m: nat, w': World)
    requires act.DoStart? || act.DoInsert? || act.DoPreSendFailure? || act.DoSend?
    requires DbInv(w.db) && act.worker in w.workers && PhaseOk(w, w.workers[act.worker]) && w' == Step(w, act, m)
    ensures GoesOn(w, w', act.worker) && w'.db.deliveries == w.db.deliveries
  {
    StartGoesOn(w, act.worker);
  }

  lemma WorkerGoesOn(w: World, act: Action, m: nat, w': World)
    requires Inv(w, m) && !OnTables(act) && act.worker in w.workers && w' == Step(w, act, m)
    ensures GoesOn(w, w', act.worker) && NoNewClaims(w.db, w'.db)
  {
    assert PhaseOk(w, w.workers[act.worker]);
    if act.DoMark? {
      MarkGoesOn(w, act.worker, act.payload, act.at, act.report);
    } else if act.DoResolve? {
      ResolveGoesOn(w, act.worker);
    } else if act.DoRecordFailure? {
      FailureGoesOn(w, act.worker, act.code, act.retryAt, act.at, m);
    } else {
      SenderGoesOn(w, act, m, w');
    }
  }

  lemma OthersGoOn(w: World, act: Action, m: nat, l: nat)
    requires !OnTables(act) && l != act.worker
    ensures var w' := Step(w, act, m);
      (l in w'.workers <==> l in w.workers) && (l in w.workers ==> w'.workers[l] == w.workers[l])
  {
  }

  lemma WorkerStaysAttended(w: World, act: Action, m: nat, w': World)
    requires Inv(w, m) && Attended(w) && !OnTables(act) && w' == Step(w, act, m)
    ensures Attended(w')
  {
    if act.worker in w.workers {
      WorkerGoesOn(w, act, m, w');
      forall l: nat | l in w.workers ensures GoesOn(w, w', l) {
        if l != act.worker { OthersGoOn(w, act, m, l); }
      }
      StaysAttended(w, w');
    }
  }
}
