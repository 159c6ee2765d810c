/** The promises of the delivery protocol, over every run. */
module DeliveryTheorems {
  import opened Basics
  import opened DeliveryOutbox
  import opened DeliveryInvariant
  import opened ChannelSend
  import opened DeliveryProtocol
  import opened DeliverySafety

  ghost predicate Reachable(w: World, m: nat) {
    0 < m && exists acts: seq<Action> :: FencedRun(INITIAL, acts, m) && w == Run(INITIAL, acts, m)
  }

  lemma ReachableInv(w: World, m: nat)
    requires Reachable(w, m)
    ensures Sound(w, m)
  {
    var acts: seq<Action> :| FencedRun(INITIAL, acts, m) && w == Run(INITIAL, acts, m);
    InitialInv(m);
    RunKeeps(INITIAL, acts, m);
  }

  // ----- At most one effect -----

  /** Every POST is for an attempt of its part, and one that may have had an effect is never recorded as failed. */
  ghost predicate PostsPlaced(w: World) {
    forall i: nat :: i < |w.posts| ==> PostOk(w, i)
  }

  ghost predicate OnePostPerAttempt(w: World) {
    forall i: nat, j: nat :: i < j < |w.posts| ==> w.posts[i].attempt != w.posts[j].attempt
  }

  /** Of each part one attempt is not known to have failed, and one more per manual retry out of quarantine. */
  ghost predicate OneLiveAttempt(w: World) {
    forall d: nat, part: nat :: |NotFailed(w.db, d, part)| <= 1 + |UncertainRetries(w, d, part)|
  }

  ghost predicate Promise(w: World) {
    PostsPlaced(w) && OnePostPerAttempt(w) && OneLiveAttempt(w)
  }

  lemma InvPromises(w: World, m: nat)
    requires Inv(w, m)
    ensures Promise(w)
  {
    forall d: nat, part: nat ensures |NotFailed(w.db, d, part)| <= 1 + |UncertainRetries(w, d, part)| {
      assert EffectBudget(w, d, part);
    }
  }

  lemma PromiseBoundsEffects(w: World, d: nat, part: nat)
    requires Promise(w)
    ensures |EffectPosts(w, d, part)| <= 1 + |UncertainRetries(w, d, part)|
  {
    var posts := w.posts;
    var attemptOf: nat -> nat := (i: nat) => if i < |posts| then posts[i].attempt else 0;
    forall i: nat | i in EffectPosts(w, d, part) ensures attemptOf(i) in NotFailed(w.db, d, part) {
      assert PostOk(w, i);
    }
    InjectionSize(EffectPosts(w, d, part), NotFailed(w.db, d, part), attemptOf);
  }

  /**
   Each part is posted with a possible effect at most once, plus once per manual retry out of quarantine at that part.
   */
  lemma AtMostOneEffect(w: World, m: nat, d: nat, part: nat)
    requires Reachable(w, m)
    ensures |EffectPosts(w, d, part)| <= 1 + |UncertainRetries(w, d, part)|
  {
    ReachableInv(w, m);
    InvPromises(w, m);
    PromiseBoundsEffects(w, d, part);
  }

  /** Every message was posted while the account of its delivery was signed in, in every run whatever. */
  lemma {:induction false} PostsGoToTheirAccount(w: World, acts: seq<Action>, m: nat)
    requires forall i: nat :: i < |w.posts| ==> OwnAccount(w, i)
    ensures forall i: nat :: i < |Run(w, acts, m).posts| ==> OwnAccount(Run(w, acts, m), i)
    decreases |acts|
  {
    if acts != [] {
      StepKeepsAccounts(w, acts[0], m, Step(w, acts[0], m));
      PostsGoToTheirAccount(Step(w, acts[0], m), acts[1..], m);
    }
  }

  predicate OwnAccount(w: World, i: nat)
    requires i < |w.posts|
  {
    w.posts[i].delivery < |w.db.deliveries| && w.posts[i].account == w.db.deliveries[w.posts[i].delivery].accountId
  }

  lemma StepKeepsAccounts(w: World, act: Action, m: nat, w': World)
    requires w' == Step(w, act, m) && forall i: nat :: i < |w.posts| ==> OwnAccount(w, i)
    ensures forall i: nat :: i < |w'.posts| ==> OwnAccount(w', i)
  {
    StepGrows(w, act, m);
    if act.DoSend? && act.worker in w.workers && w.workers[act.worker].delivery < |w.db.deliveries| {
      var r := w.db.deliveries[w.workers[act.worker].delivery];
      SendIsFenced(r.accountId, r.conversationId, act.content, act.account, act.reply);
      forall i: nat | i < |w'.posts| ensures OwnAccount(w', i) {
        if i < |w.posts| { assert OwnAccount(w, i) && w'.posts[i] == w.posts[i]; }
      }
    } else {
      OnlySendsPost(w, act, m);
      forall i: nat | i < |w'.posts| ensures OwnAccount(w', i) { assert OwnAccount(w, i); }
    }
  }

  lemma OnlySendsPost(w: World, act: Action, m: nat)
    requires !act.DoSend? || act.worker !in w.workers || w.workers[act.worker].delivery >= |w.db.deliveries|
    ensures Step(w, act, m).posts == w.posts
  {
  }

  // ----- The tables -----

  /** The four tables agree in every reachable state. */
  lemma TablesAgree(w: World, m: nat)
    requires Reachable(w, m)
    ensures Agrees(w.db)
  {
    ReachableInv(w, m);
    InvAgrees(w.db);
  }

  /**
   The guards on the response row never refuse anything, however old a look: whoever passes the delivery guards commits.
   */
  lemma ResponseGuardsNeverFire(w: World, m: nat, d: nat, channel: string, token: Token, a: nat, part: nat,
                                how: Closing, seen: ClaimLook, stop: StopLook, text: string, cutoff: Time, now: Time)
    requires Reachable(w, m)
    ensures Claim(w.db, d, channel, token, now) != Refused(ResponseConflict)
    ensures RecoverCommit(w.db, seen, channel, cutoff, now) != Refused(ResponseConflict)
    ensures MarkPartDelivered(w.db, d, token, a, part, text, now) != Refused(ResponseConflict)
    ensures FinishAttempt(w.db, d, token, a, how, text, now) != Refused(ResponseConflict)
    ensures (stop.status.Failed? || stop.status.Uncertain?) ==>
      RetryCommit(w.db, stop, now) != Refused(ResponseConflict)
  {
    ReachableInv(w, m);
    ClaimKeeps(w.db, d, channel, token, now);
    MarkKeeps(w.db, d, token, a, part, text, now);
    FinishKeeps(w.db, d, token, a, how, text, now);
    if seen.delivery < |w.db.deliveries| { assert RowOk(w.db, seen.delivery); }
    if stop.delivery < |w.db.deliveries| { assert RowOk(w.db, stop.delivery); }
  }

  // ----- Bounded attempts -----

  function CountUnder(attempts: seq<Attempt>, d: nat, parts: nat, n: nat): nat
    requires n <= |attempts|
  {
    if n == 0 then 0
    else
      var here := if attempts[n - 1].delivery == d && attempts[n - 1].part < parts then 1 else 0;
      CountUnder(attempts, d, parts, n - 1) + here
  }

  function CountAll(attempts: seq<Attempt>, d: nat, n: nat): nat
    requires n <= |attempts|
  {
    if n == 0 then 0 else CountAll(attempts, d, n - 1) + (if attempts[n - 1].delivery == d then 1 else 0)
  }

  ghost function RetriesUnder(w: World, d: nat, parts: nat): set<nat> {
    set i: nat | i < |w.retries| && w.retries[i].delivery == d && w.retries[i].part < parts
  }

  ghost function RetriesOf(w: World, d: nat): set<nat> {
    set i: nat | i < |w.retries| && w.retries[i].delivery == d
  }

  lemma {:induction false} CountSplits(attempts: seq<Attempt>, d: nat, parts: nat, n: nat)
    requires n <= |attempts|
    ensures CountUnder(attempts, d, parts + 1, n)
      == CountUnder(attempts, d, parts, n) + CountPart(attempts, d, parts, n)
    ensures CountUnder(attempts, d, 0, n) == 0
  {
    if n > 0 { CountSplits(attempts, d, parts, n - 1); }
  }

  lemma {:induction false} CountUnderAll(attempts: seq<Attempt>, d: nat, parts: nat, n: nat)
    requires n <= |attempts|
    requires forall a: nat :: a < n && attempts[a].delivery == d ==> attempts[a].part < parts
    ensures CountUnder(attempts, d, parts, n) == CountAll(attempts, d, n)
  {
    if n > 0 { CountUnderAll(attempts, d, parts, n - 1); }
  }

  lemma {:induction false} BoundUnder(w: World, m: nat, d: nat, parts: nat)
    requires forall part: nat :: AttemptBudget(w, d, part, m)
    ensures CountUnder(w.db.attempts, d, parts, |w.db.attempts|) <= parts * m + |RetriesUnder(w, d, parts)|
  {
    if parts == 0 {
      CountSplits(w.db.attempts, d, 0, |w.db.attempts|);
    } else {
      BoundUnder(w, m, d, parts - 1);
      CountSplits(w.db.attempts, d, parts - 1, |w.db.attempts|);
      assert AttemptBudget(w, d, parts - 1, m);
      assert RetriesUnder(w, d, parts) == RetriesUnder(w, d, parts - 1) + Retries(w, d, parts - 1);
      assert RetriesUnder(w, d, parts - 1) !! Retries(w, d, parts - 1);
      assert parts * m == (parts - 1) * m + m;
    }
  }

  /** A delivery is attempted at most max_attempts times per part, plus once per manual retry. */
  lemma AttemptsAreBounded(w: World, m: nat, d: nat)
    requires Reachable(w, m) && d < |w.db.deliveries|
    ensures w.db.deliveries[d].responseId in w.db.responses
    ensures CountAll(w.db.attempts, d, |w.db.attempts|)
            <= w.db.responses[w.db.deliveries[d].responseId].partCount * m + |RetriesOf(w, d)|
  {
    ReachableInv(w, m);
    assert RowOk(w.db, d);
    var parts := w.db.responses[w.db.deliveries[d].responseId].partCount;
    forall a: nat | a < |w.db.attempts| && w.db.attempts[a].delivery == d ensures w.db.attempts[a].part < parts {
      assert AttemptOk(w.db, a);
    }
    BoundUnder(w, m, d, parts);
    CountUnderAll(w.db.attempts, d, parts, |w.db.attempts|);
    SubsetSize(RetriesUnder(w, d, parts), RetriesOf(w, d));
  }

  /** The attempts of one part carry exactly the numbers 1..k, each once. */
  lemma AttemptNumbersAreConsecutive(w: World, m: nat, d: nat, part: nat, number: nat)
    requires Reachable(w, m)
    ensures var attempts := w.db.attempts;
            (exists a: nat :: a < |attempts| && attempts[a].delivery == d && attempts[a].part == part
              && attempts[a].number == number)
            <==> 1 <= number <= CountPart(attempts, d, part, |attempts|)
    ensures forall a: nat, b: nat :: a < b < |w.db.attempts|
              && w.db.attempts[a].delivery == w.db.attempts[b].delivery
                 && w.db.attempts[a].part == w.db.attempts[b].part
              ==> w.db.attempts[a].number < w.db.attempts[b].number
  {
    ReachableInv(w, m);
    var s := w.db.attempts;
    forall a: nat | a < |s| && s[a].delivery == d && s[a].part == part
      ensures 1 <= s[a].number <= CountPart(s, d, part, |s|)
    {
      CountGrows(s, d, part, a + 1, |s|);
    }
    if 1 <= number <= CountPart(s, d, part, |s|) {
      var a := FindNumber(s, d, part, number, |s|);
    }
    forall a: nat, b: nat | a < b < |s| && s[a].delivery == s[b].delivery && s[a].part == s[b].part
      ensures s[a].number < s[b].number
    {
      CountGrows(s, s[b].delivery, s[b].part, a + 1, b);
    }
  }

  lemma {:induction false} FindNumber(s: seq<Attempt>, d: nat, part: nat, number: nat, n: nat) returns (a: nat)
    requires Numbered(s) && n <= |s| && 1 <= number <= CountPart(s, d, part, n)
    ensures a < n && s[a].delivery == d && s[a].part == part && s[a].number == number
  {
    if s[n - 1].delivery == d && s[n - 1].part == part && CountPart(s, d, part, n) == number {
      a := n - 1;
    } else {
      a := FindNumber(s, d, part, number, n - 1);
    }
  }

  // ----- Fencing -----

  /** The claim that drew this token has ended. */
  ghost predicate Ended(w: World, token: Token) {
    token in w.used && forall d: nat :: !Held(w.db, d, token)
  }

  lemma EndedStays(w: World, act: Action, m: nat, token: Token)
    requires Ended(w, token)
    ensures Ended(Step(w, act, m), token)
  {
    var w' := Step(w, act, m);
    forall d: nat ensures !Held(w'.db, d, token) {
      assert !Held(w.db, d, token);
      if OnTables(act) { SessionsHandNoClaim(w, act, m, d, token); } else { WorkersHandNoClaim(w, act, m, d, token); }
    }
  }

  lemma SessionsHandNoClaim(w: World, act: Action, m: nat, d: nat, token: Token)
    requires OnTables(act) && token in w.used && !Held(w.db, d, token)
    ensures var w' := Step(w, act, m); token in w'.used && !Held(w'.db, d, token)
  {
  }

  lemma WorkersHandNoClaim(w: World, act: Action, m: nat, d: nat, token: Token)
    requires !OnTables(act) && token in w.used && !Held(w.db, d, token)
    ensures var w' := Step(w, act, m); token in w'.used && !Held(w'.db, d, token)
  {
    match act
    case DoMark(k, payload, at, report) =>
    case DoRecordFailure(k, code, retryAt, at) =>
    case _ =>
  }

  /** Once a claim has ended, every check of its token fails, in any continuation whatever. */
  lemma {:induction false} EndedClaimIsFenced(w: World, acts: seq<Action>, m: nat, token: Token)
    requires Ended(w, token)
    ensures var db := Run(w, acts, m).db;
            && Ended(Run(w, acts, m), token)
            && (forall d: nat, part: nat :: StartCheck(db, d, token, part).Denied?)
            && (forall d: nat, a: nat, part: nat, payload: string, now: Time ::
                  MarkPartDelivered(db, d, token, a, part, payload, now).Refused?)
            && (forall d: nat, a: nat, how: Closing, error: string, now: Time ::
                  FinishAttempt(db, d, token, a, how, error, now).Refused?)
    decreases |acts|
  {
    if acts != [] {
      EndedStays(w, acts[0], m, token);
      EndedClaimIsFenced(Step(w, acts[0], m), acts[1..], m, token);
    } else {
      assert forall d: nat :: !Held(w.db, d, token);
    }
  }

  /** Recovery, a closed attempt and the final receipt each end the claim that was held. */
  lemma ClaimsEnd(w: World, m: nat, k: nat, token: Token, d: nat, channel: string, cutoff: Time, code: string, at: Time)
    requires Reachable(w, m) && Held(w.db, d, token)
    ensures Recover(w.db, d, channel, cutoff, at).Committed? ==>
              !Held(Recover(w.db, d, channel, cutoff, at).db, d, token)
    ensures forall a: nat, how: Closing :: FinishAttempt(w.db, d, token, a, how, code, at).Committed? ==>
              !Held(FinishAttempt(w.db, d, token, a, how, code, at).db, d, token)
    ensures forall a: nat, part: nat :: var t := MarkPartDelivered(w.db, d, token, a, part, code, at);
              t.Committed? ==>
                (Held(t.db, d, token) <==>
                t.db.deliveries[d].nextPart < t.db.responses[t.db.deliveries[d].responseId].partCount)
  {
    ReachableInv(w, m);
    assert RowOk(w.db, d);
  }

  // ----- The window inside start_attempt -----

  /**
   Nothing that can happen from here on breaks the promise, as long as no write relies on a read that has become false.
   */
  ghost predicate Safe(w: World, m: nat) {
    forall acts: seq<Action> :: FencedRun(w, acts, m) ==> Promise(Run(w, acts, m))
  }

  const OK := Answer(200, true)

  ghost predicate ReadyToSend(w: World, k: nat, d: nat, a: nat) {
    k in w.workers && w.workers[k].Busy? && w.workers[k].delivery == d && w.workers[k].attempt == a
      && w.workers[k].stage.Sending?
  }

  lemma SendPosts(w: World, k: nat, d: nat, a: nat)
    requires d < |w.db.deliveries| && w.db.deliveries[d].conversationId != "" && ReadyToSend(w, k, d, a)
    ensures var w' := SendStep(w, k, "text", Some(w.db.deliveries[d].accountId), OK);
      && w'.db == w.db && |w'.posts| == |w.posts| + 1 && w'.posts[|w.posts|].attempt == a
      && w'.posts[..|w.posts|] == w.posts && w'.workers == w.workers[k := w.workers[k].(stage := Accepted)]
  {
  }

  /** Two workers that carry one attempt can both send it. */
  lemma BothSend(w: World, k: nat, l: nat, d: nat, a: nat, m: nat) returns (acts: seq<Action>)
    requires k != l && d < |w.db.deliveries| && w.db.deliveries[d].conversationId != ""
    requires ReadyToSend(w, k, d, a) && ReadyToSend(w, l, d, a)
    ensures FencedRun(w, acts, m) && !Promise(Run(w, acts, m))
  {
    var account := Some(w.db.deliveries[d].accountId);
    var a1, a2 := DoSend(k, "text", account, OK), DoSend(l, "text", account, OK);
    var w1 := Step(w, a1, m);
    SendPosts(w, k, d, a);
    var w2 := Step(w1, a2, m);
    SendPosts(w1, l, d, a);
    var n := |w.posts|;
    assert w2.posts[n].attempt == a && w2.posts[n + 1].attempt == a && !OnePostPerAttempt(w2);
    var none: seq<Action> := [];
    RunCons(w1, a2, none, m);
    RunCons(w, a1, [a2] + none, m);
    acts := [a1] + ([a2] + none);
  }

  /** A step in front of a run. */
  lemma Before(w: World, act: Action, rest: seq<Action>, m: nat) returns (acts: seq<Action>)
    requires FencedStep(w, act) && FencedRun(Step(w, act, m), rest, m)
    ensures FencedRun(w, acts, m) && Run(w, acts, m) == Run(Step(w, act, m), rest, m)
  {
    RunCons(w, act, rest, m);
    acts := [act] + rest;
  }

  /**
   The state after an insert whose claim was lost: worker `k` carries the newest attempt, which is in flight at the
   counter.
   */
  ghost predicate Orphan(w: World, k: nat, d: nat, part: nat, a: nat) {
    && d < |w.db.deliveries| && w.db.deliveries[d].conversationId != "" && w.db.deliveries[d].nextPart == part
    && ActiveAttempt(w.db, d, part) == Some(a) && ReadyToSend(w, k, d, a)
  }

  /** The query for the attempt in flight looks at the attempts of its own delivery only. */
  lemma {:induction false} SameActive(db: Db, db': Db, d: nat, part: nat, n: nat)
    requires n <= |db.attempts| && n <= |db'.attempts|
    requires forall a: nat :: a < n && (db.attempts[a].delivery == d || db'.attempts[a].delivery == d) ==>
               db'.attempts[a] == db.attempts[a]
    ensures ActiveBelow(db', d, part, n) == ActiveBelow(db, d, part, n)
    decreases n
  {
    if n > 0 { SameActive(db, db', d, part, n - 1); }
  }

  /** Whoever starts at the counter takes the orphan up, and both send it. */
  lemma StarterSharesOrphan(w: World, k: nat, l: nat, d: nat, token: Token, part: nat, a: nat,
                            m: nat) returns (acts: seq<Action>)
    requires Orphan(w, k, d, part, a) && k != l && l in w.workers && w.workers[l] == Looping(d, token, part)
      && Held(w.db, d, token)
    ensures FencedRun(w, acts, m) && !Promise(Run(w, acts, m))
  {
    var w1 := Step(w, DoStart(l), m);
    assert w1 == TakeUp(w, l, w.workers[l], a);
    var rest := BothSend(w1, k, l, d, a, m);
    acts := Before(w, DoStart(l), rest, m);
  }

  lemma InserterSharesOrphan(w: World, k: nat, l: nat, d: nat, token: Token, part: nat, a: nat, number: nat,
                             m: nat) returns (acts: seq<Action>)
    requires Orphan(w, k, d, part, a) && k != l && l in w.workers && w.workers[l] == Starting(d, token, part, number)
    requires Held(w.db, d, token) && w.db.attempts[a].number == number
    ensures FencedRun(w, acts, m) && !Promise(Run(w, acts, m))
  {
    assert NumberTaken(w.db, d, part, number);
    var w1 := Step(w, DoInsert(l), m);
    assert w1 == TakeUp(w, l, w.workers[l], a);
    var rest := BothSend(w1, k, l, d, a, m);
    acts := Before(w, DoInsert(l), rest, m);
  }

  lemma ResolverSharesOrphan(w: World, k: nat, l: nat, d: nat, part: nat, a: nat, m: nat) returns (acts: seq<Action>)
    requires Orphan(w, k, d, part, a) && k != l && l in w.workers && w.workers[l].Busy? && w.workers[l].stage.Unsure?
    requires w.workers[l].delivery == d && (d, w.workers[l].part) in w.db.receipts && Held(w.db, d, w.workers[l].token)
    ensures FencedRun(w, acts, m) && !Promise(Run(w, acts, m))
  {
    var w1 := Step(w, DoResolve(l), m);
    assert w1 == w.(workers := w.workers[l := Looping(d, w.workers[l].token, part)]);
    var rest := StarterSharesOrphan(w1, k, l, d, w.workers[l].token, part, a, m);
    acts := Before(w, DoResolve(l), rest, m);
  }

  /** A queued delivery with an orphan: the next claim shares it. */
  lemma NextClaimSharesOrphan(w: World, k: nat, d: nat, part: nat, a: nat, m: nat) returns (acts: seq<Action>)
    requires Orphan(w, k, d, part, a) && w.db.deliveries[d].status.Queued?
      && w.db.deliveries[d].responseId in w.db.responses
    requires var p := w.db.responses[w.db.deliveries[d].responseId].status; p.Generated? || p.Delivering?
    ensures FencedRun(w, acts, m) && !Promise(Run(w, acts, m))
  {
    var token := UnusedToken(w.used);
    var l := UnusedNumber(w.workers.Keys);
    var r := w.db.deliveries[d];
    var act := DoClaim(l, d, r.channel, token, r.availableAt);
    assert l !in w.workers;
    var w1 := Step(w, act, m);
    assert w1.workers[l] == Looping(d, token, part) && w1.workers[k] == w.workers[k] && Held(w1.db, d, token);
    assert w1.db.attempts == w.db.attempts && w1.db.deliveries[d].conversationId == r.conversationId;
    SameActive(w.db, w1.db, d, part, |w.db.attempts|);
    var rest := StarterSharesOrphan(w1, k, l, d, token, part, a, m);
    acts := Before(w, act, rest, m);
  }

  /** A failed delivery with an orphan: an operator's retry lets the next claim share it. */
  lemma RetrySharesOrphan(w: World, k: nat, d: nat, part: nat, a: nat, m: nat) returns (acts: seq<Action>)
    requires Orphan(w, k, d, part, a) && w.db.deliveries[d].status.Failed?
      && w.db.deliveries[d].responseId in w.db.responses
    requires w.db.responses[w.db.deliveries[d].responseId].status.Failed?
    ensures FencedRun(w, acts, m) && !Promise(Run(w, acts, m))
  {
    var a1, a2 := DoLookRetry(0, d, false), DoRetry(0, 0);
    var w1 := Step(w, a1, m);
    assert w1 == w.(looks := w.looks[0 := AtStop(StopLook(d, w.db.deliveries[d].status, part))]);
    var w2 := Step(w1, a2, m);
    assert w2.db.attempts == w.db.attempts && w2.workers == w.workers && w2.db.deliveries[d].status.Queued?;
    assert w2.db.deliveries[d].conversationId == w.db.deliveries[d].conversationId
      && w2.db.deliveries[d].nextPart == part;
    SameActive(w.db, w2.db, d, part, |w.db.attempts|);
    var rest := NextClaimSharesOrphan(w2, k, d, part, a, m);
    rest := Before(w1, a2, rest, m);
    acts := Before(w, a1, rest, m);
  }

  /** A number that is still free is the next one, so nothing was started since it was drawn. */
  lemma FreeNumberIsNext(w: World, k: nat)
    requires DbInv(w.db) && k in w.workers && w.workers[k].Starting? && PhaseOk(w, w.workers[k])
    requires !NumberTaken(w.db, w.workers[k].delivery, w.workers[k].part, w.workers[k].number)
    ensures w.workers[k].number == Count(w.db, w.workers[k].delivery, w.workers[k].part) + 1
    ensures ClearAt(w.db, w.workers[k].delivery, w.workers[k].part)
  {
    var x := w.workers[k];
    if x.number <= Count(w.db, x.delivery, x.part) {
      var a := FindNumber(w.db.attempts, x.delivery, x.part, x.number, |w.db.attempts|);
    }
  }

  /** An insert at a part that is delivered or in quarantine makes one live attempt too many. */
  lemma InsertAtTakenPart(w: World, k: nat, m: nat)
    requires Inv(w, m) && k in w.workers && w.workers[k].Starting?
    requires Taken(w.db, w.workers[k].delivery, w.workers[k].part)
    ensures !Promise(LandStep(w, k, w.workers[k]))
  {
    var x := w.workers[k];
    var w' := LandStep(w, k, x);
    var n := |w.db.attempts|;
    assert EffectBudget(w, x.delivery, x.part);
    assert NotFailed(w'.db, x.delivery, x.part) == NotFailed(w.db, x.delivery, x.part) + {n};
    assert UncertainRetries(w', x.delivery, x.part) == UncertainRetries(w, x.delivery, x.part);
  }

  /** A free part of a delivery whose claim is another's: whatever its state, someone will share the orphan. */
  lemma InsertAtFreePart(w: World, k: nat, m: nat) returns (acts: seq<Action>)
    requires Sound(w, m) && k in w.workers && w.workers[k].Starting?
    requires var x := w.workers[k];
      && !NumberTaken(w.db, x.delivery, x.part, x.number) && !Held(w.db, x.delivery, x.token)
         && !Taken(w.db, x.delivery, x.part)
    ensures var w' := LandStep(w, k, w.workers[k]); FencedRun(w', acts, m) && !Promise(Run(w', acts, m))
  {
    var x := w.workers[k];
    var d, a := x.delivery, |w.db.attempts|;
    var w' := LandStep(w, k, x);
    assert PhaseOk(w, x);
    assert RowOk(w.db, d);
    assert Orphan(w', k, d, x.part, a);
    var status := w.db.deliveries[d].status;
    if status.Queued? {
      acts := NextClaimSharesOrphan(w', k, d, x.part, a, m);
    } else if status.Failed? {
      acts := RetrySharesOrphan(w', k, d, x.part, a, m);
    } else {
      assert HasPart(w.db, d, x.part);
      acts := HolderSharesOrphan(w, k, m);
    }
  }

  lemma HolderSharesOrphan(w: World, k: nat, m: nat) returns (acts: seq<Action>)
    requires Sound(w, m) && k in w.workers && w.workers[k].Starting?
    requires var x := w.workers[k];
      && !NumberTaken(w.db, x.delivery, x.part, x.number) && !Held(w.db, x.delivery, x.token)
         && !Taken(w.db, x.delivery, x.part)
      && x.delivery < |w.db.deliveries| && w.db.deliveries[x.delivery].status.Delivering?
      && Orphan(LandStep(w, k, x), k, x.delivery, x.part, |w.db.attempts|)
    ensures var w' := LandStep(w, k, w.workers[k]); FencedRun(w', acts, m) && !Promise(Run(w', acts, m))
  {
    var x := w.workers[k];
    var d, a := x.delivery, |w.db.attempts|;
    var w' := LandStep(w, k, x);
    assert RowOk(w.db, d) && PhaseOk(w, x);
    var token := w.db.deliveries[d].claimToken.value;
    assert Holder(w, d, token);
    var l: nat :| l in w.workers && w.workers[l].delivery == d && w.workers[l].token == token;
    var y := w.workers[l];
    assert PhaseOk(w, y) && l != k && w'.workers[l] == y;
    FreeNumberIsNext(w, k);
    if y.Looping? {
      acts := StarterSharesOrphan(w', k, l, d, token, x.part, a, m);
    } else if y.Starting? {
      acts := InserterSharesOrphan(w', k, l, d, token, x.part, a, y.number, m);
    } else {
      assert AttemptOk(w.db, y.attempt) && InFlightOk(w.db, y.attempt);
      acts := ResolverSharesOrphan(w', k, l, d, x.part, a, m);
    }
  }

  /**
   The insert of start_attempt is safe for all that can follow exactly when the claim still stands as it lands. The
   tables alone ask for less: `InsertAgreesIff` accepts any claim at the part, but an attempt started under another
   worker's claim is then sent by both.
   */
  lemma InsertIsSafeIffHeld(w: World, k: nat, m: nat)
    requires Sound(w, m) && 0 < m && k in w.workers && w.workers[k].Starting?
    requires !NumberTaken(w.db, w.workers[k].delivery, w.workers[k].part, w.workers[k].number)
    ensures Safe(LandStep(w, k, w.workers[k]), m) <==> Held(w.db, w.workers[k].delivery, w.workers[k].token)
  {
    var x := w.workers[k];
    var w' := LandStep(w, k, x);
    if Held(w.db, x.delivery, x.token) {
      assert w' == Step(w, DoInsert(k), m) && FencedStep(w, DoInsert(k));
      StepKeeps(w, DoInsert(k), m);
      forall acts: seq<Action> | FencedRun(w', acts, m) ensures Promise(Run(w', acts, m)) {
        RunKeeps(w', acts, m);
        InvPromises(Run(w', acts, m), m);
      }
    } else if Taken(w.db, x.delivery, x.part) {
      InsertAtTakenPart(w, k, m);
      var none: seq<Action> := [];
      assert FencedRun(w', none, m) && Run(w', none, m) == w';
    } else {
      var acts := InsertAtFreePart(w, k, m);
    }
  }
}
