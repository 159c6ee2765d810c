/**
 What the protocol can always do: a queued delivery goes through, a stale claim is recovered, a stopped one is retried.
 */
module DeliveryProgress {
  import opened Basics
  import opened DeliveryOutbox
  import opened DeliveryInvariant
  import opened ChannelSend
  import opened DeliveryProtocol
  import opened DeliverySafety
  import opened DeliveryTheorems

  const OK := Answer(200, true)

  /** The steps of one part: check, insert, send, record. */
  function PartSteps(k: nat, account: string, content: string, payload: string, at: Time): seq<Action> {
    [DoStart(k), DoInsert(k), DoSend(k, content, Some(account), OK), DoMark(k, payload, at, Clean)]
  }

  ghost predicate AtPart(w: World, k: nat, d: nat, token: Token, part: nat, m: nat) {
    Sound(w, m) && k in w.workers && w.workers[k] == Looping(d, token, part) && Held(w.db, d, token)
  }

  /** Every delivery but this one is as it was, and none is new. */
  ghost predicate Others(rows: seq<Delivery>, rows': seq<Delivery>, d: nat) {
    |rows'| == |rows| && forall e: nat :: e < |rows| && e != d ==> rows'[e] == rows[e]
  }

  lemma OthersChain(a: seq<Delivery>, b: seq<Delivery>, c: seq<Delivery>, d: nat)
    requires Others(a, b, d) && Others(b, c, d)
    ensures Others(a, c, d)
  {
  }

  /** What the four steps leave behind: one attempt, one message, one receipt, and the counter moved on. */
  ghost predicate Through(w: World, w': World, k: nat, d: nat, token: Token, part: nat, payload: string, at: Time)
    requires d < |w.db.deliveries|
  {
    var r, n := w.db.deliveries[d], |w.db.attempts|;
    && w'.posts == w.posts + [Post(d, part, n, r.accountId, true)] && w'.retries == w.retries && w'.looks == w.looks
    && |w'.db.attempts| == n + 1 && w'.db.attempts[..n] == w.db.attempts
    && w'.db.attempts[n].delivery == d && w'.db.attempts[n].part == part && w'.db.attempts[n].status.Delivered?
    && w'.db.receipts == w.db.receipts[(d, part) := Receipt(r.responseId, n, payload, at)]
    && Others(w.db.deliveries, w'.db.deliveries, d)
    && w'.db.deliveries[d].nextPart == part + 1 && w'.db.deliveries[d].responseId == r.responseId
    && w'.db.deliveries[d].accountId == r.accountId && w'.db.deliveries[d].conversationId == r.conversationId
  }

  lemma FourSteps(w: World, a: Action, w1: World, b: Action, w2: World, c: Action, w3: World, d: Action, w4: World,
                  m: nat)
    requires w1 == Step(w, a, m) && w2 == Step(w1, b, m) && w3 == Step(w2, c, m) && w4 == Step(w3, d, m)
    requires FencedStep(w, a) && FencedStep(w1, b) && FencedStep(w2, c) && FencedStep(w3, d)
    ensures Run(w, [a, b, c, d], m) == w4 && FencedRun(w, [a, b, c, d], m)
  {
    var none: seq<Action> := [];
    RunCons(w3, d, none, m);
    RunCons(w2, c, [d] + none, m);
    RunCons(w1, b, [c] + ([d] + none), m);
    RunCons(w, a, [b] + ([c] + ([d] + none)), m);
    assert [a] + ([b] + ([c] + ([d] + none))) == [a, b, c, d];
  }

  /** The checks pass and give the next number. */
  lemma ChecksPass(w: World, k: nat, d: nat, token: Token, part: nat, m: nat)
    requires AtPart(w, k, d, token, part, m)
    ensures StartStep(w, k) == w.(workers := w.workers[k := Starting(d, token, part, Count(w.db, d, part) + 1)])
    ensures part == w.db.deliveries[d].nextPart && RowOk(w.db, d)
    ensures part < w.db.responses[w.db.deliveries[d].responseId].partCount
  {
    assert PhaseOk(w, w.workers[k]) && RowOk(w.db, d);
    ActiveFindsInFlight(w.db, d);
    MaxIsCount(w.db, d, part, |w.db.attempts|);
  }

  /** The message is out and accepted, and not yet recorded. */
  function Accepting(w: World, k: nat, d: nat, token: Token, part: nat, number: nat): World
    requires d < |w.db.deliveries|
  {
    var n := |w.db.attempts|;
    w.(db := InsertAttempt(w.db, d, part, number),
      posts := w.posts + [Post(d, part, n, w.db.deliveries[d].accountId, true)],
       workers := w.workers[k := Busy(d, token, part, n, number, Accepted)])
  }

  function Begun(w: World, k: nat, d: nat, token: Token, part: nat, number: nat): World {
    w.(db := InsertAttempt(w.db, d, part, number),
       workers := w.workers[k := Busy(d, token, part, |w.db.attempts|, number, Sending)])
  }

  lemma PartIsBegun(w: World, k: nat, d: nat, token: Token, part: nat, m: nat) returns (w1: World, number: nat)
    requires AtPart(w, k, d, token, part, m) && 0 < m
    ensures w1 == Step(w, DoStart(k), m) && FencedStep(w1, DoInsert(k))
    ensures Step(w1, DoInsert(k), m) == Begun(w, k, d, token, part, number)
      && Sound(Begun(w, k, d, token, part, number), m)
  {
    ChecksPass(w, k, d, token, part, m);
    w1, number := Step(w, DoStart(k), m), Count(w.db, d, part) + 1;
    StepKeeps(w, DoStart(k), m);
    InsertLands(w1, k, m);
    SameBegin(w, w1, k, d, token, part, number);
  }

  lemma SameBegin(w: World, w1: World, k: nat, d: nat, token: Token, part: nat, number: nat)
    requires w1 == w.(workers := w.workers[k := Starting(d, token, part, number)])
    ensures LandStep(w1, k, w1.workers[k]) == Begun(w, k, d, token, part, number)
  {
    assert Begun(w, k, d, token, part, number).workers == LandStep(w1, k, w1.workers[k]).workers;
  }

  lemma InsertLands(w: World, k: nat, m: nat)
    requires Sound(w, m) && 0 < m && k in w.workers && w.workers[k].Starting?
    requires Held(w.db, w.workers[k].delivery, w.workers[k].token)
    ensures FencedStep(w, DoInsert(k)) && Step(w, DoInsert(k), m) == LandStep(w, k, w.workers[k])
    ensures Sound(LandStep(w, k, w.workers[k]), m)
  {
    assert PhaseOk(w, w.workers[k]);
    HeldNumberIsFree(w, k);
    StepKeeps(w, DoInsert(k), m);
  }

  lemma PartIsSent(w: World, k: nat, d: nat, token: Token, part: nat, number: nat, content: string, m: nat)
    requires AtPart(w, k, d, token, part, m) && 0 < m && content != "" && Sound(Begun(w, k, d, token, part, number), m)
    ensures var act := DoSend(k, content, Some(w.db.deliveries[d].accountId), OK);
      Step(Begun(w, k, d, token, part, number), act, m) == Accepting(w, k, d, token, part, number)
    ensures Sound(Accepting(w, k, d, token, part, number), m)
  {
    var w2, act := Begun(w, k, d, token, part, number), DoSend(k, content, Some(w.db.deliveries[d].accountId), OK);
    var w3 := Sends(w2, k, d, content, m);
    assert w3.workers == Accepting(w, k, d, token, part, number).workers;
    StepKeeps(w2, act, m);
  }

  /** A POST counts as one that may have been accepted unless the answer was definite and neither 2xx nor 5xx. */
  lemma PossibleEffectsCount(w: World, k: nat, content: string, account: AccountCheck, reply: Reply)
    requires |SendStep(w, k, content, account, reply).posts| > |w.posts|
    ensures var posts := SendStep(w, k, content, account, reply).posts;
      && |posts| == |w.posts| + 1 && posts[..|w.posts|] == w.posts
      && (!posts[|w.posts|].effect <==> reply.Answer? && !(200 <= reply.status < 300) && !(500 <= reply.status < 600))
  {
    assert SendStep(w, k, content, account, reply).posts[..|w.posts|] == w.posts;
  }

  /** Where a part leads: to the next one, or to the end of the delivery. */
  ghost predicate MovesOn(w: World, w': World, k: nat, d: nat, token: Token, part: nat, m: nat)
    requires d < |w.db.deliveries|
  {
    var rid := w.db.deliveries[d].responseId;
    && rid in w.db.responses && part < w.db.responses[rid].partCount
    && rid in w'.db.responses && w'.db.responses[rid].partCount == w.db.responses[rid].partCount
    && d < |w'.db.deliveries|
    && (if part + 1 == w.db.responses[rid].partCount
        then w'.db.deliveries[d].status.Delivered? && w'.db.responses[rid].status.Delivered? && k !in w'.workers
        else AtPart(w', k, d, token, part + 1, m))
  }

  lemma PartIsRecorded(w: World, k: nat, d: nat, token: Token, part: nat, number: nat, payload: string, at: Time,
                       m: nat, w': World)
    requires AtPart(w, k, d, token, part, m) && 0 < m && Sound(Accepting(w, k, d, token, part, number), m)
    requires w' == Step(Accepting(w, k, d, token, part, number), DoMark(k, payload, at, Clean), m)
    ensures Sound(w', m) && Through(w, w', k, d, token, part, payload, at) && MovesOn(w, w', k, d, token, part, m)
  {
    var w3, n := Accepting(w, k, d, token, part, number), |w.db.attempts|;
    StepKeeps(w3, DoMark(k, payload, at, Clean), m);
    Records(w3, k, d, token, part, n, number, payload, at, m);
    assert w'.db.attempts[..n] == w.db.attempts;
  }

  /**
   One part, undisturbed: a single message is posted to the delivery's account, and its receipt moves the counter on.
   */
  lemma PartGoesThrough(w: World, k: nat, d: nat, token: Token, part: nat, content: string, payload: string, at: Time,
                        m: nat)
    returns (w': World)
    requires AtPart(w, k, d, token, part, m) && 0 < m && content != ""
    ensures var acts := PartSteps(k, w.db.deliveries[d].accountId, content, payload, at);
      w' == Run(w, acts, m) && FencedRun(w, acts, m) && Sound(w', m)
    ensures Through(w, w', k, d, token, part, payload, at) && MovesOn(w, w', k, d, token, part, m)
  {
    var acts := PartSteps(k, w.db.deliveries[d].accountId, content, payload, at);
    var w1, number := PartIsBegun(w, k, d, token, part, m);
    PartIsSent(w, k, d, token, part, number, content, m);
    var w2, w3 := Begun(w, k, d, token, part, number), Accepting(w, k, d, token, part, number);
    w' := Step(w3, acts[3], m);
    FourSteps(w, acts[0], w1, acts[1], w2, acts[2], w3, acts[3], w', m);
    PartIsRecorded(w, k, d, token, part, number, payload, at, m, w');
  }

  lemma Sends(w: World, k: nat, d: nat, content: string, m: nat) returns (w': World)
    requires DbInv(w.db) && d < |w.db.deliveries| && k in w.workers && w.workers[k].Busy? && w.workers[k].stage.Sending?
    requires w.workers[k].delivery == d && content != ""
    ensures w' == Step(w, DoSend(k, content, Some(w.db.deliveries[d].accountId), OK), m)
    ensures var x := w.workers[k];
      w' == w.(posts := w.posts + [Post(d, x.part, x.attempt, w.db.deliveries[d].accountId, true)],
               workers := w.workers[k := x.(stage := Accepted)])
  {
    assert RowOk(w.db, d);
    w' := Step(w, DoSend(k, content, Some(w.db.deliveries[d].accountId), OK), m);
  }

  lemma Records(w: World, k: nat, d: nat, token: Token, part: nat, a: nat, number: nat, payload: string, at: Time,
                m: nat)
    requires Sound(w, m) && k in w.workers && w.workers[k] == Busy(d, token, part, a, number, Accepted)
      && Held(w.db, d, token)
    ensures var w' := Step(w, DoMark(k, payload, at, Clean), m);
      && d < |w.db.deliveries| && a < |w.db.attempts| && part == w.db.deliveries[d].nextPart
      && var r := w.db.deliveries[d];
      && r.responseId in w.db.responses && part < w.db.responses[r.responseId].partCount
      && w'.posts == w.posts && w'.retries == w.retries && w'.looks == w.looks
      && w'.db.attempts
         == w.db.attempts[a := w.db.attempts[a].(status := AttemptStatus.Delivered, completedAt := Some(at))]
      && w'.db.receipts == w.db.receipts[(d, part) := Receipt(r.responseId, a, payload, at)]
      && (if part + 1 == w.db.responses[r.responseId].partCount
          then
            && w'.db.deliveries == w.db.deliveries[d := r.(nextPart := part + 1, status := DeliveryStatus.Delivered,
                 claimToken := None, claimedAt := None, completedAt := Some(at), lastError := None)]
            && w'.db.responses == w.db.responses[r.responseId := w.db.responses[r.responseId].(
                 status := ResponseStatus.Delivered, lastError := None)]
            && w'.workers == w.workers - {k}
          else
            && w'.db.deliveries == w.db.deliveries[d := r.(nextPart := part + 1)] && w'.db.responses == w.db.responses
            && w'.workers == w.workers[k := Looping(d, token, part + 1)])
  {
    var x := w.workers[k];
    assert PhaseOk(w, x) && InFlightOk(w.db, a) && RowOk(w.db, d) && AttemptOk(w.db, a);
    assert (d, part) in w.db.receipts ==> ReceiptOk(w.db, d, part);
    var r := w.db.deliveries[d];
    assert w.db.responses[r.responseId := w.db.responses[r.responseId]] == w.db.responses;
  }

  // ----- A whole delivery -----

  /** The messages of the parts from `part` on, one after the other. */
  function Messages(d: nat, account: string, part: nat, total: nat, attempt: nat): seq<Post>
    decreases total - part
  {
    if part >= total then []
      else [Post(d, part, attempt, account, true)] + Messages(d, account, part + 1, total, attempt + 1)
  }

  /** The delivery is complete, and what was posted on the way are its remaining parts, each once, in order. */
  ghost predicate Completed(w: World, w': World, d: nat, part: nat)
    requires d < |w.db.deliveries| && w.db.deliveries[d].responseId in w.db.responses
  {
    var r := w.db.deliveries[d];
    var total := w.db.responses[r.responseId].partCount;
    && d < |w'.db.deliveries| && w'.db.deliveries[d].status.Delivered? && w'.db.deliveries[d].responseId == r.responseId
    && r.responseId in w'.db.responses && w'.db.responses[r.responseId].status.Delivered?
    && w'.posts == w.posts + Messages(d, r.accountId, part, total, |w.db.attempts|) && w'.retries == w.retries
    && (forall p: nat :: (d, p) in w'.db.receipts <==> p < total)
    && Others(w.db.deliveries, w'.db.deliveries, d)
  }

  lemma {:induction false} RestGoesThrough(w: World, k: nat, d: nat, token: Token, part: nat, content: string,
                                           payload: string, at: Time, m: nat)
    returns (acts: seq<Action>)
    requires AtPart(w, k, d, token, part, m) && 0 < m && content != "" && RowOk(w.db, d)
    ensures FencedRun(w, acts, m) && Completed(w, Run(w, acts, m), d, part)
    decreases w.db.responses[w.db.deliveries[d].responseId].partCount - part
  {
    var first := PartSteps(k, w.db.deliveries[d].accountId, content, payload, at);
    var w1 := PartGoesThrough(w, k, d, token, part, content, payload, at, m);
    assert RowOk(w1.db, d);
    if w1.db.deliveries[d].status.Delivered? {
      acts := first;
      AllReceipts(w1, d);
      LastPart(w, w1, k, d, token, part, payload, at, m);
    } else {
      var rest := RestGoesThrough(w1, k, d, token, part + 1, content, payload, at, m);
      RunAppend(w, first, rest, m);
      acts := first + rest;
      MoreParts(w, w1, Run(w1, rest, m), k, d, token, part, payload, at, m);
    }
  }

  lemma LastPart(w: World, w': World, k: nat, d: nat, token: Token, part: nat, payload: string, at: Time, m: nat)
    requires d < |w.db.deliveries| && Through(w, w', k, d, token, part, payload, at)
      && MovesOn(w, w', k, d, token, part, m)
    requires w'.db.deliveries[d].status.Delivered?
    requires forall p: nat :: (d, p) in w'.db.receipts <==> p < w'.db.responses[w.db.deliveries[d].responseId].partCount
    ensures Completed(w, w', d, part)
  {
    var r := w.db.deliveries[d];
    var total := w.db.responses[r.responseId].partCount;
    assert Messages(d, r.accountId, part, total, |w.db.attempts|)
      == [Post(d, part, |w.db.attempts|, r.accountId, true)] + [];
  }

  lemma MoreParts(w: World, w1: World, w': World, k: nat, d: nat, token: Token, part: nat, payload: string, at: Time,
                  m: nat)
    requires d < |w.db.deliveries| && Through(w, w1, k, d, token, part, payload, at)
      && MovesOn(w, w1, k, d, token, part, m)
    requires Completed(w1, w', d, part + 1)
    ensures Completed(w, w', d, part)
  {
    var r, n := w.db.deliveries[d], |w.db.attempts|;
    var total := w.db.responses[r.responseId].partCount;
    Associates(w.posts, [Post(d, part, n, r.accountId, true)], Messages(d, r.accountId, part + 1, total, n + 1));
    OthersChain(w.db.deliveries, w1.db.deliveries, w'.db.deliveries, d);
  }

  lemma AllReceipts(w: World, d: nat)
    requires DbInv(w.db) && d < |w.db.deliveries| && w.db.deliveries[d].status.Delivered?
    ensures w.db.deliveries[d].responseId in w.db.responses
    ensures forall p: nat :: (d, p) in w.db.receipts <==> p < w.db.responses[w.db.deliveries[d].responseId].partCount
  {
    assert RowOk(w.db, d);
    ReceiptsAgreeOf(w.db, d);
  }

  /** The worker that claims a due delivery holds it, at its next part; nothing else changes. */
  lemma ClaimSucceeds(w: World, k: nat, d: nat, token: Token, at: Time, m: nat) returns (w': World)
    requires Sound(w, m) && 0 < m && d < |w.db.deliveries| && k !in w.workers && token !in w.used
    requires w.db.deliveries[d].status.Queued? && w.db.deliveries[d].availableAt <= at
    ensures w' == Step(w, DoClaim(k, d, w.db.deliveries[d].channel, token, at), m)
    ensures AtPart(w', k, d, token, w.db.deliveries[d].nextPart, m) && RowOk(w.db, d) && RowOk(w'.db, d)
    ensures var r := w.db.deliveries[d];
      && w'.posts == w.posts && w'.retries == w.retries && w'.db.attempts == w.db.attempts
         && w'.db.receipts == w.db.receipts
      && w'.db.deliveries
         == w.db.deliveries[d := r.(status := DeliveryStatus.Delivering, claimCount := r.claimCount + 1,
           claimToken := Some(token), claimedAt := Some(at), completedAt := None, lastError := None)]
      && w'.db.responses[r.responseId].partCount == w.db.responses[r.responseId].partCount
  {
    var r := w.db.deliveries[d];
    assert RowOk(w.db, d);
    w' := Step(w, DoClaim(k, d, r.channel, token, at), m);
    StepKeeps(w, DoClaim(k, d, r.channel, token, at), m);
    assert RowOk(w'.db, d);
  }

  /**
   From every sound state a delivery that is queued and due can be completed: a worker that claims it and is not
   disturbed posts each remaining part once, to the delivery's account, and records its receipt.
   */
  lemma QueuedDeliveryCompletes(w: World, d: nat, content: string, payload: string, at: Time,
                                m: nat) returns (acts: seq<Action>)
    requires Sound(w, m) && 0 < m && content != "" && d < |w.db.deliveries| && RowOk(w.db, d)
    requires w.db.deliveries[d].status.Queued? && w.db.deliveries[d].availableAt <= at
    ensures FencedRun(w, acts, m) && Completed(w, Run(w, acts, m), d, w.db.deliveries[d].nextPart)
  {
    var r := w.db.deliveries[d];
    var token := UnusedToken(w.used);
    var k := UnusedNumber(w.workers.Keys);
    assert k !in w.workers;
    var w1 := ClaimSucceeds(w, k, d, token, at, m);
    var rest := RestGoesThrough(w1, k, d, token, r.nextPart, content, payload, at, m);
    ClaimedCompletes(w, w1, Run(w1, rest, m), d);
    acts := Before(w, DoClaim(k, d, r.channel, token, at), rest, m);
  }

  /** What is completed from a claim is completed from the state before it. */
  lemma ClaimedCompletes(w: World, w1: World, w': World, d: nat)
    requires d < |w.db.deliveries| == |w1.db.deliveries| && w.db.deliveries[d].responseId in w.db.responses
    requires w1.db.deliveries == w.db.deliveries[d := w1.db.deliveries[d]]
    requires w1.posts == w.posts && w1.retries == w.retries && |w1.db.attempts| == |w.db.attempts|
    requires var r, r1 := w.db.deliveries[d], w1.db.deliveries[d];
      && r1.responseId == r.responseId && r1.accountId == r.accountId && r.responseId in w1.db.responses
      && w1.db.responses[r.responseId].partCount == w.db.responses[r.responseId].partCount
    requires Completed(w1, w', d, w.db.deliveries[d].nextPart)
    ensures Completed(w, w', d, w.db.deliveries[d].nextPart)
  {
    OthersChain(w.db.deliveries, w1.db.deliveries, w'.db.deliveries, d);
  }

  /** A new response is due at once and can be delivered whole: its parts are posted in order, each once. */
  lemma EnqueuedDeliveryCompletes(w: World, rid: string, n: nat, channel: string, account: string, conversation: string,
                                  at: Time, content: string, payload: string, m: nat)
    returns (acts: seq<Action>)
    requires Sound(w, m) && 0 < m && content != "" && rid !in w.db.responses && 0 < n
    requires channel != "" && account != "" && conversation != ""
    ensures var w1, d := Step(w, DoEnqueue(rid, n, channel, account, conversation, at), m), |w.db.deliveries|;
      && FencedRun(w1, acts, m) && d < |w1.db.deliveries| && w1.db.deliveries[..d] == w.db.deliveries
      && w1.db.deliveries[d].responseId == rid && rid in w1.db.responses
      && w1.db.deliveries[d].channel == channel && w1.db.deliveries[d].conversationId == conversation
      && Completed(w1, Run(w1, acts, m), d, 0)
      && Run(w1, acts, m).posts == w.posts + Messages(d, account, 0, n, |w.db.attempts|)
  {
    var act, d := DoEnqueue(rid, n, channel, account, conversation, at), |w.db.deliveries|;
    var w1 := Step(w, act, m);
    StepKeeps(w, act, m);
    assert RowOk(w1.db, d);
    assert w1.db.deliveries[..d] == w.db.deliveries;
    acts := QueuedDeliveryCompletes(w1, d, content, payload, at, m);
  }

  // ----- Recovery and retry -----

  /** A delivery back in the queue, free at this time, with its progress kept. */
  predicate BackInQueue(r: Delivery, r': Delivery, at: Time) {
    && r'.status == DeliveryStatus.Queued && r'.availableAt == at && r'.claimToken.None? && r'.claimedAt.None?
    && r'.completedAt.None? && r'.lastError.None? && r'.nextPart == r.nextPart && r'.claimCount == r.claimCount
    && r'.responseId == r.responseId && r'.channel == r.channel
  }

  predicate InQuarantine(r: Delivery, r': Delivery, at: Time) {
    && r'.status == DeliveryStatus.Uncertain && r'.claimToken.None? && r'.claimedAt.None?
    && r'.completedAt == Some(at) && r'.lastError == Some("delivery_claim_expired") && r'.nextPart == r.nextPart
  }

  /**
   A claim as old as the cutoff is recovered by a session that looks and commits undisturbed: an attempt in flight is
   quarantined with its delivery, and otherwise the delivery is free at once. Nothing else changes.
   */
  lemma StaleClaimIsRecovered(w: World, s: nat, d: nat, cutoff: Time, at: Time, m: nat)
    requires Sound(w, m) && d < |w.db.deliveries| && w.db.deliveries[d].status.Delivering?
    requires w.db.deliveries[d].claimedAt.Some? && w.db.deliveries[d].claimedAt.value <= cutoff
    ensures var r := w.db.deliveries[d];
      var w1 := Step(w, DoLookRecover(s, d), m);
      var w' := Step(w1, DoRecover(s, r.channel, cutoff, at), m);
      && FencedStep(w1, DoRecover(s, r.channel, cutoff, at)) && Others(w.db.deliveries, w'.db.deliveries, d)
      && (if Idle(w.db, d) then BackInQueue(r, w'.db.deliveries[d], at) && w'.db.attempts == w.db.attempts
          else
            && InQuarantine(r, w'.db.deliveries[d], at)
            && exists a: nat :: InFlight(w.db, a) && w.db.attempts[a].delivery == d
                 && w'.db.attempts == w.db.attempts[a := w.db.attempts[a].(
                      status := AttemptStatus.Uncertain, error := Some("delivery_claim_expired"),
                        completedAt := Some(at))])
  {
    var r := w.db.deliveries[d];
    assert RowOk(w.db, d);
    ActiveFindsInFlight(w.db, d);
    var w1 := Step(w, DoLookRecover(s, d), m);
    var active := ActiveAttempt(w.db, d, r.nextPart);
    if active.Some? { assert InFlight(w.db, active.value) && w.db.attempts[active.value].delivery == d; }
  }

  /** A stopped delivery is put back in the queue by an operator who looks and commits undisturbed. */
  lemma StoppedDeliveryIsRetried(w: World, s: nat, d: nat, allowUncertain: bool, at: Time, m: nat)
    requires Sound(w, m) && d < |w.db.deliveries|
    requires w.db.deliveries[d].status.Failed? || (allowUncertain && w.db.deliveries[d].status.Uncertain?)
    ensures var r := w.db.deliveries[d];
      var w1 := Step(w, DoLookRetry(s, d, allowUncertain), m);
      var w' := Step(w1, DoRetry(s, at), m);
      && FencedStep(w1, DoRetry(s, at)) && Others(w.db.deliveries, w'.db.deliveries, d)
         && w'.db.attempts == w.db.attempts
      && BackInQueue(r, w'.db.deliveries[d], at)
      && w'.retries == w.retries + [ManualRetry(d, r.nextPart, r.status.Uncertain?)]
  {
    assert RowOk(w.db, d);
  }

  /** Nobody else is retried: a delivery that has not failed, or is uncertain without leave, stays as it is. */
  lemma OthersAreNotRetried(w: World, s: nat, d: nat, allowUncertain: bool, m: nat)
    requires d < |w.db.deliveries| ==>
      !w.db.deliveries[d].status.Failed? && (allowUncertain ==> !w.db.deliveries[d].status.Uncertain?)
    ensures Step(w, DoLookRetry(s, d, allowUncertain), m) == w
  {
  }
}
