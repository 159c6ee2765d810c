/** Runs in which a write relies on a read that has become false, each from the empty tables. */
module DeliveryRaces {
  import opened Basics
  import opened DeliveryOutbox
  import opened DeliveryInvariant
  import opened ChannelSend
  import opened DeliveryProtocol
  import opened DeliverySafety

  const M := 3
  const OK := Answer(200, true)
  const BOT := Some("bot")

  lemma Two(w: World, a: Action, b: Action)
    ensures Run(w, [a, b], M) == Step(Step(w, a, M), b, M)
    ensures FencedRun(w, [a, b], M) <==> FencedStep(w, a) && FencedStep(Step(w, a, M), b)
  {
    var none: seq<Action> := [];
    assert [a, b] == [a] + ([b] + none);
    RunCons(w, a, [b] + none, M);
    RunCons(Step(w, a, M), b, none, M);
  }

  lemma Four(w: World, a: Action, b: Action, c: Action, d: Action)
    ensures Run(w, [a, b, c, d], M) == Step(Step(Step(Step(w, a, M), b, M), c, M), d, M)
  {
    Two(w, a, b);
    Two(Run(w, [a, b], M), c, d);
    assert [a, b, c, d] == [a, b] + [c, d];
    RunAppend(w, [a, b], [c, d], M);
  }

  function Row(status: DeliveryStatus, nextPart: nat, claims: nat, availableAt: Time, token: Option<Token>,
               claimedAt: Option<Time>, completedAt: Option<Time>, error: Option<string>): Delivery
  {
    Delivery("r", "wechat", "bot", "chat", status, nextPart, claims, availableAt, 0, token, claimedAt, completedAt,
      error)
  }

  function Tables(r: Delivery, attempts: seq<Attempt>, receipts: map<(nat, nat), Receipt>, p: Response): Db {
    Db([r], attempts, receipts, map["r" := p])
  }

  // ----- A worker between check and insert, while recovery is between look and commit -----

  const CLAIMED := Row(DeliveryStatus.Delivering, 0, 1, 0, Some("t1"), Some(0), None, None)
  const REQUEUED := Row(DeliveryStatus.Queued, 0, 1, 300, None, None, None, None)
  const FLYING := Attempt(0, 0, 1, AttemptStatus.Delivering, None, None)

  function Opening(parts: nat): seq<Action> {
    [DoEnqueue("r", parts, "wechat", "bot", "chat", 0), DoClaim(1, 0, "wechat", "t1", 0), DoStart(1),
      DoLookRecover(7, 0)]
  }

  function Opened(parts: nat): World {
    World(Tables(CLAIMED, [], map[], Response(parts, ResponseStatus.Delivering, None)),
          map[1 := Starting(0, "t1", 0, 1)], map[7 := AtClaim(ClaimLook(0, "t1", 0, None))], {"t1"}, [], [])
  }

  lemma OpeningRuns(parts: nat)
    requires 0 < parts
    ensures Run(INITIAL, Opening(parts), M) == Opened(parts)
  {
    var acts := Opening(parts);
    Four(INITIAL, acts[0], acts[1], acts[2], acts[3]);
    assert acts == [acts[0], acts[1], acts[2], acts[3]];
    var w1 := Step(INITIAL, acts[0], M);
    var w2 := Step(w1, acts[1], M);
    assert w2.db == Opened(parts).db && w2.workers == map[1 := Looping(0, "t1", 0)];
    var w3 := Step(w2, acts[2], M);
    assert w3.workers == Opened(parts).workers;
  }

  const RECOVER := DoRecover(7, "wechat", 300, 300)

  /** The delivery is queued again, and yet an attempt is in flight for which worker 1 is about to send. */
  function Loose(parts: nat): World {
    World(Tables(REQUEUED, [FLYING], map[], Response(parts, ResponseStatus.Generated, None)),
          map[1 := Busy(0, "t1", 0, 0, 1, Sending)], map[], {"t1"}, [], [])
  }

  /** The first window: recovery commits before the insert. Only the insert relies on a stale read. */
  lemma InsertAfterRecovery(parts: nat)
    requires 0 < parts
    ensures Run(Opened(parts), [RECOVER, DoInsert(1)], M) == Loose(parts)
    ensures FencedStep(Opened(parts), RECOVER) && !FencedStep(Step(Opened(parts), RECOVER, M), DoInsert(1))
  {
    Two(Opened(parts), RECOVER, DoInsert(1));
    var w1 := Step(Opened(parts), RECOVER, M);
    assert w1.db == Tables(REQUEUED, [], map[], Response(parts, ResponseStatus.Generated, None)) && w1.looks == map[];
  }

  /** The second window: the insert lands before recovery commits. Only recovery relies on a stale read. */
  lemma RecoveryAfterInsert(parts: nat)
    requires 0 < parts
    ensures Run(Opened(parts), [DoInsert(1), RECOVER], M) == Loose(parts)
    ensures FencedStep(Opened(parts), DoInsert(1)) && !FencedStep(Step(Opened(parts), DoInsert(1), M), RECOVER)
  {
    Two(Opened(parts), DoInsert(1), RECOVER);
    var w1 := Step(Opened(parts), DoInsert(1), M);
    assert w1.db == Tables(CLAIMED, [FLYING], map[], Response(parts, ResponseStatus.Delivering, None));
    assert Step(w1, RECOVER, M).looks == map[];
  }

  const TAIL := [DoClaim(2, 0, "wechat", "t2", 300), DoStart(2), DoSend(1, "hi", BOT, OK), DoSend(2, "hi", BOT, OK)]

  /** The next claim resumes the attempt, and both workers send it. */
  lemma LooseAttemptIsSentTwice(parts: nat)
    requires 0 < parts
    ensures var w := Run(Loose(parts), TAIL, M); EffectPosts(w, 0, 0) == {0, 1} && w.retries == []
  {
    Four(Loose(parts), TAIL[0], TAIL[1], TAIL[2], TAIL[3]);
    assert TAIL == [TAIL[0], TAIL[1], TAIL[2], TAIL[3]];
    var w1 := Step(Loose(parts), TAIL[0], M);
    assert w1.workers == map[1 := Busy(0, "t1", 0, 0, 1, Sending), 2 := Looping(0, "t2", 0)];
    var w2 := Step(w1, TAIL[1], M);
    assert w2.workers == map[1 := Busy(0, "t1", 0, 0, 1, Sending), 2 := Busy(0, "t2", 0, 0, 1, Sending)];
    var w3 := Step(w2, TAIL[2], M);
    var w4 := Step(w3, TAIL[3], M);
    assert w4.posts == [Post(0, 0, 0, "bot", true), Post(0, 0, 0, "bot", true)];
  }

  lemma Chain(first: seq<Action>, w: World, second: seq<Action>)
    requires Run(INITIAL, first, M) == w
    ensures Run(INITIAL, first + second, M) == Run(w, second, M)
    ensures FencedRun(INITIAL, first + second, M) ==> FencedRun(w, second, M)
  {
    RunAppend(INITIAL, first, second, M);
  }

  /** Either window alone lets one part be sent twice, with no manual retry. */
  lemma EitherWindowSendsTwice(insertFirst: bool) returns (acts: seq<Action>)
    ensures acts == Opening(1) + (if insertFirst then [DoInsert(1), RECOVER] else [RECOVER, DoInsert(1)]) + TAIL
    ensures !FencedRun(INITIAL, acts, M)
    ensures var w := Run(INITIAL, acts, M); |EffectPosts(w, 0, 0)| == 2 && w.retries == []
  {
    var race := if insertFirst then [DoInsert(1), RECOVER] else [RECOVER, DoInsert(1)];
    acts := Opening(1) + race + TAIL;
    OpeningRuns(1);
    Chain(Opening(1), Opened(1), race);
    if insertFirst {
      RecoveryAfterInsert(1);
      Two(Opened(1), DoInsert(1), RECOVER);
    } else {
      InsertAfterRecovery(1);
      Two(Opened(1), RECOVER, DoInsert(1));
    }
    RunAppend(INITIAL, Opening(1) + race, TAIL, M);
    LooseAttemptIsSentTwice(1);
  }

  // ----- Recovery that saw an earlier part -----

  const DELIVERING := Response(2, ResponseStatus.Delivering, None)

  function Deliver(k: nat): seq<Action> {
    [DoInsert(k), DoSend(k, "hi", BOT, OK), DoMark(k, "receipt", 1, Clean)]
  }

  lemma Three(w: World, a: Action, b: Action, c: Action)
    ensures Run(w, [a, b, c], M) == Step(Step(Step(w, a, M), b, M), c, M)
  {
    var none: seq<Action> := [];
    RunCons(w, a, [b, c], M);
    assert [a, b, c] == [a] + [b, c];
    Two(Step(w, a, M), b, c);
  }

  /** Worker `k` is about to insert attempt `a` with this number at the first part of two. */
  function Waiting(k: nat, r: Delivery, attempts: seq<Attempt>, number: nat, looks: map<nat, Look>, used: set<Token>,
                   retries: seq<ManualRetry>): World
    requires r.claimToken.Some?
  {
    World(Tables(r, attempts, map[], DELIVERING), map[k := Starting(0, r.claimToken.value, 0, number)], looks, used, [],
      retries)
  }

  function Onward(k: nat, r: Delivery, attempts: seq<Attempt>, number: nat, looks: map<nat, Look>, used: set<Token>,
                  retries: seq<ManualRetry>): World
    requires r.claimToken.Some?
  {
    World(Tables(r.(nextPart := 1), attempts + [Attempt(0, 0, number, AttemptStatus.Delivered, None, Some(1))],
                 map[(0, 0) := Receipt("r", |attempts|, "receipt", 1)], DELIVERING),
          map[k := Looping(0, r.claimToken.value, 1)], looks, used, [Post(0, 0, |attempts|, "bot", true)], retries)
  }

  lemma FirstPartDelivered(k: nat, r: Delivery, attempts: seq<Attempt>, number: nat, looks: map<nat, Look>,
                           used: set<Token>, retries: seq<ManualRetry>)
    requires r.claimToken.Some? && r.status.Delivering? && r.nextPart == 0 && r.responseId == "r"
    requires r.accountId == "bot" && r.conversationId == "chat"
    requires forall a: nat :: a < |attempts| ==> attempts[a].number != number
    ensures Run(Waiting(k, r, attempts, number, looks, used, retries), Deliver(k), M)
      == Onward(k, r, attempts, number, looks, used, retries)
  {
    var w := Waiting(k, r, attempts, number, looks, used, retries);
    var token, n := r.claimToken.value, |attempts|;
    Three(w, Deliver(k)[0], Deliver(k)[1], Deliver(k)[2]);
    assert !NumberTaken(w.db, 0, 0, number);
    var w1 := Step(w, Deliver(k)[0], M);
    assert w1.workers == map[k := Busy(0, token, 0, n, number, Sending)];
    var w2 := Step(w1, Deliver(k)[1], M);
    assert w2.workers == map[k := Busy(0, token, 0, n, number, Accepted)] && w2.db == w1.db;
    var w3 := Step(w2, Deliver(k)[2], M);
    assert w3.db == Onward(k, r, attempts, number, looks, used, retries).db;
  }

  /** A part is delivered between look and commit: recovery then puts the response back to generated. */
  lemma RecoveryOfAnEarlierPart() returns (acts: seq<Action>)
    ensures acts == Opening(2) + Deliver(1) + [RECOVER]
    ensures !Agrees(Run(INITIAL, acts, M).db)
  {
    OpeningRuns(2);
    Chain(Opening(2), Opened(2), Deliver(1));
    FirstPartDelivered(1, CLAIMED, [], 1, Opened(2).looks, {"t1"}, []);
    var w := Onward(1, CLAIMED, [], 1, Opened(2).looks, {"t1"}, []);
    RunSnoc(INITIAL, Opening(2) + Deliver(1), RECOVER, M);
    acts := Opening(2) + Deliver(1) + [RECOVER];
    var db := Step(w, RECOVER, M).db;
    assert db.deliveries[0].nextPart == 1 && db.responses["r"].status.Generated?;
    assert !RowAgrees(db, 0);
  }

  // ----- A manual retry that saw an earlier failure -----

  const STOPPED := Response(2, ResponseStatus.Failed, Some("bad"))
  const SEEN := AtStop(StopLook(0, DeliveryStatus.Failed, 0))

  function GiveUpOn(k: nat): seq<Action> {
    [DoInsert(k), DoPreSendFailure(k, BadValue), DoRecordFailure(k, "bad", 0, 1)]
  }

  function GivenUp(part: nat, number: nat): Attempt {
    Attempt(0, part, number, AttemptStatus.Failed, Some("bad"), Some(1))
  }

  function Stopped(r: Delivery): Delivery {
    r.(status := DeliveryStatus.Failed, claimToken := None, claimedAt := None, lastError := Some("bad"),
      completedAt := Some(1))
  }

  ghost predicate AtPart(db: Db, token: Token, part: nat) {
    && |db.deliveries| == 1 && Held(db, 0, token) && db.deliveries[0].nextPart == part
    && db.deliveries[0].responseId == "r" && db.responses == map["r" := DELIVERING]
  }

  lemma FailureCloses(w: World, k: nat, token: Token, part: nat, number: nat, before: seq<Attempt>)
    requires w.workers == map[k := Busy(0, token, part, |before|, number, Failing(BadValue))]
      && AtPart(w.db, token, part)
    requires w.db.attempts == before + [Attempt(0, part, number, AttemptStatus.Delivering, None, None)]
    ensures Step(w, DoRecordFailure(k, "bad", 0, 1), M) ==
      w.(db := Db([Stopped(w.db.deliveries[0])], before + [GivenUp(part, number)], w.db.receipts, map["r" := STOPPED]),
        workers := map[])
  {
    var w' := Step(w, DoRecordFailure(k, "bad", 0, 1), M);
    assert w'.db.attempts == before + [GivenUp(part, number)];
    assert w'.db.deliveries == [Stopped(w.db.deliveries[0])];
  }

  /** A worker that fails for good before it sends anything leaves the delivery failed. */
  lemma PartGivenUp(k: nat, w: World, token: Token, part: nat, number: nat)
    requires w.workers == map[k := Starting(0, token, part, number)] && !NumberTaken(w.db, 0, part, number)
    requires AtPart(w.db, token, part)
    ensures Run(w, GiveUpOn(k), M) ==
      w.(db := Db([Stopped(w.db.deliveries[0])], w.db.attempts + [GivenUp(part, number)], w.db.receipts,
        map["r" := STOPPED]),
         workers := map[])
  {
    var acts, n := GiveUpOn(k), |w.db.attempts|;
    Three(w, acts[0], acts[1], acts[2]);
    var w1 := Step(w, acts[0], M);
    assert w1.workers == map[k := Busy(0, token, part, n, number, Sending)];
    var w2 := Step(w1, acts[1], M);
    assert w2.workers == map[k := Busy(0, token, part, n, number, Failing(BadValue))] && w2.db == w1.db;
    FailureCloses(w2, k, token, part, number, w.db.attempts);
  }

  const FAILED := Row(DeliveryStatus.Failed, 0, 1, 0, None, None, Some(1), Some("bad"))
  const AGAIN := Row(DeliveryStatus.Delivering, 0, 2, 0, Some("t2"), Some(0), None, None)
  const TRIED := [ManualRetry(0, 0, false)]

  /** One operator looks, another retries, and the delivery is claimed again. */
  const SECOND_TRY :=
    [DoLookRetry(8, 0, false), DoLookRetry(9, 0, false), DoRetry(9, 0), DoClaim(2, 0, "wechat", "t2", 0)]

  lemma SecondTryRuns(looks: map<nat, Look>)
    requires looks.Keys == {7}
    ensures var w := World(Tables(FAILED, [GivenUp(0, 1)], map[], STOPPED), map[], looks, {"t1"}, [], []);
      Run(w, SECOND_TRY, M)
        == World(Tables(AGAIN, [GivenUp(0, 1)], map[], DELIVERING), map[2 := Looping(0, "t2", 0)], looks[8 := SEEN],
          {"t1", "t2"}, [], TRIED)
  {
    var w := World(Tables(FAILED, [GivenUp(0, 1)], map[], STOPPED), map[], looks, {"t1"}, [], []);
    Four(w, SECOND_TRY[0], SECOND_TRY[1], SECOND_TRY[2], SECOND_TRY[3]);
    var w1 := Step(w, SECOND_TRY[0], M);
    var w2 := Step(w1, SECOND_TRY[1], M);
    assert w2 == w.(looks := looks[8 := SEEN][9 := SEEN]);
    var w3 := Step(w2, SECOND_TRY[2], M);
    assert w3.looks == looks[8 := SEEN] && w3.retries == TRIED;
    assert w3.db == Tables(Row(DeliveryStatus.Queued, 0, 1, 0, None, None, None, None), [GivenUp(0, 1)], map[],
      Response(2, ResponseStatus.Generated, None));
    var w4 := Step(w3, SECOND_TRY[3], M);
    assert w4.db == Tables(AGAIN, [GivenUp(0, 1)], map[], DELIVERING);
  }

  const BOTH := map[7 := AtClaim(ClaimLook(0, "t1", 0, None)), 8 := SEEN]

  lemma Join(a: seq<Action>, b: seq<Action>, c: seq<Action>, w1: World, w2: World, w3: World)
    requires Run(INITIAL, a, M) == w1 && Run(w1, b, M) == w2 && Run(w2, c, M) == w3
    ensures Run(INITIAL, a + b + c, M) == w3
  {
    RunAppend(INITIAL, a, b, M);
    RunAppend(INITIAL, a + b, c, M);
  }

  function FirstAct(): seq<Action> {
    Opening(2) + GiveUpOn(1) + SECOND_TRY
  }

  function GivenUpOnce(): World {
    World(Tables(FAILED, [GivenUp(0, 1)], map[], STOPPED), map[], Opened(2).looks, {"t1"}, [], [])
  }

  function ClaimedAgain(): World {
    World(Tables(AGAIN, [GivenUp(0, 1)], map[], DELIVERING), map[2 := Looping(0, "t2", 0)], BOTH, {"t1", "t2"}, [],
      TRIED)
  }

  lemma FirstFailure()
    ensures Run(Opened(2), GiveUpOn(1), M) == GivenUpOnce()
  {
    assert !NumberTaken(Opened(2).db, 0, 0, 1);
    PartGivenUp(1, Opened(2), "t1", 0, 1);
    assert Stopped(CLAIMED) == FAILED;
  }

  lemma FirstActRuns()
    ensures Run(INITIAL, FirstAct(), M) == ClaimedAgain()
  {
    OpeningRuns(2);
    FirstFailure();
    SecondTryRuns(Opened(2).looks);
    Join(Opening(2), GiveUpOn(1), SECOND_TRY, Opened(2), GivenUpOnce(), ClaimedAgain());
  }

  function SecondAct(): seq<Action> {
    FirstAct() + [DoStart(2)] + Deliver(2)
  }

  function Started(): World {
    Waiting(2, AGAIN, [GivenUp(0, 1)], 2, BOTH, {"t1", "t2"}, TRIED)
  }

  function WentOn(): World {
    Onward(2, AGAIN, [GivenUp(0, 1)], 2, BOTH, {"t1", "t2"}, TRIED)
  }

  lemma One(w: World, act: Action)
    ensures Run(w, [act], M) == Step(w, act, M)
  {
    var none: seq<Action> := [];
    assert [act] == [act] + none;
    RunCons(w, act, none, M);
  }

  lemma SecondStart()
    ensures Run(ClaimedAgain(), [DoStart(2)], M) == Started()
  {
    One(ClaimedAgain(), DoStart(2));
    assert Step(ClaimedAgain(), DoStart(2), M).workers == Started().workers;
  }

  lemma SecondActRuns()
    ensures Run(INITIAL, SecondAct(), M) == WentOn()
  {
    FirstActRuns();
    SecondStart();
    FirstPartDelivered(2, AGAIN, [GivenUp(0, 1)], 2, BOTH, {"t1", "t2"}, TRIED);
    Join(FirstAct(), [DoStart(2)], Deliver(2), ClaimedAgain(), Started(), WentOn());
  }

  ghost predicate FailedLater(w: World) {
    && |w.db.deliveries| == 1 && w.db.deliveries[0].status.Failed? && w.db.deliveries[0].nextPart == 1
    && w.db.deliveries[0].responseId == "r" && w.db.responses == map["r" := STOPPED] && w.looks == BOTH
  }

  lemma SecondFailure() returns (w1: World, w2: World)
    ensures w1 == Run(WentOn(), [DoStart(2)], M) && w2 == Run(w1, GiveUpOn(2), M) && FailedLater(w2)
  {
    One(WentOn(), DoStart(2));
    w1 := Step(WentOn(), DoStart(2), M);
    var db := WentOn().db;
    assert MaxNumberBelow(db, 0, 1, 1) == 0 && ActiveBelow(db, 0, 1, 1).None?;
    assert w1.workers == map[2 := Starting(0, "t2", 1, 1)] && w1.db == db;
    assert !NumberTaken(w1.db, 0, 1, 1);
    PartGivenUp(2, w1, "t2", 1, 1);
    w2 := Run(w1, GiveUpOn(2), M);
  }

  lemma LateRetryDisagrees(w: World)
    requires FailedLater(w)
    ensures !Agrees(Step(w, DoRetry(8, 0), M).db)
  {
    var db := Step(w, DoRetry(8, 0), M).db;
    assert db.deliveries[0].nextPart == 1 && db.responses["r"].status.Generated?;
    assert !RowAgrees(db, 0);
  }

  /**
   A delivery that failed, was retried, went on and failed again: the first operator's retry puts the response back to
   generated.
   */
  lemma RetryOfAnEarlierFailure() returns (acts: seq<Action>)
    ensures acts == SecondAct() + [DoStart(2)] + GiveUpOn(2) + [DoRetry(8, 0)]
    ensures !Agrees(Run(INITIAL, acts, M).db)
  {
    SecondActRuns();
    var w1, w2 := SecondFailure();
    Join(SecondAct(), [DoStart(2)], GiveUpOn(2), WentOn(), w1, w2);
    RunSnoc(INITIAL, SecondAct() + [DoStart(2)] + GiveUpOn(2), DoRetry(8, 0), M);
    LateRetryDisagrees(w2);
    acts := SecondAct() + [DoStart(2)] + GiveUpOn(2) + [DoRetry(8, 0)];
  }
}
