/**
 Any number of delivery workers over the shared tables. A run is any sequence of actions; an action that is not
 possible in the current state leaves it alone, so quantifying over sequences covers every interleaving, every crash
 point and every ambiguous commit; a worker or session that dies, or whose call raises, takes no further action.
 `posts` and `retries` are the history that the theorems speak about.
 */
module DeliveryProtocol {
  import opened Basics
  import opened DeliveryOutbox
  import opened ChannelSend

  datatype Stage = Sending | Failing(error: SendError) | Accepted | Unsure

  /**
   Where a worker stands inside run_once. `Looping` is the head of the part loop, `Starting` is between the checks of
   start_attempt and its insert.
   */
  datatype Phase =
    | Looping(delivery: nat, token: Token, part: nat)
    | Starting(delivery: nat, token: Token, part: nat, number: nat)
    | Busy(delivery: nat, token: Token, part: nat, attempt: nat, number: nat, stage: Stage)

  /** `account` is the account that was signed in when the message was posted. */
  datatype Post = Post(delivery: nat, part: nat, attempt: nat, account: string, effect: bool)

  datatype ManualRetry = ManualRetry(delivery: nat, part: nat, fromUncertain: bool)

  /** What a session has read and not yet acted on. */
  datatype Look = AtClaim(claim: ClaimLook) | AtStop(stop: StopLook)

  datatype World = World(
    db: Db, workers: map<nat, Phase>, looks: map<nat, Look>, used: set<Token>, posts: seq<Post>,
      retries: seq<ManualRetry>)

  datatype Action =
    | DoEnqueue(responseId: string, partCount: nat, channel: string, accountId: string, conversationId: string,
      at: Time)
    | DoClaim(worker: nat, delivery: nat, channel: string, token: Token, at: Time)
    | DoLookRecover(session: nat, delivery: nat)
    | DoRecover(session: nat, channel: string, cutoff: Time, at: Time)
    | DoStart(worker: nat)
    | DoInsert(worker: nat)
    | DoPreSendFailure(worker: nat, error: SendError)
    | DoSend(worker: nat, content: string, account: AccountCheck, reply: Reply)
    | DoMark(worker: nat, payload: string, at: Time, report: CommitReport)
    | DoResolve(worker: nat)
    | DoRecordFailure(worker: nat, code: string, retryAt: Time, at: Time)
    | DoLookRetry(session: nat, delivery: nat, allowUncertain: bool)
    | DoRetry(session: nat, at: Time)

  const INITIAL := World(Db([], [], map[], map[]), map[], map[], {}, [], [])

  function Leave(w: World, k: nat): World {
    w.(workers := w.workers - {k})
  }

  function ClaimStep(w: World, k: nat, d: nat, channel: string, token: Token, at: Time): World {
    if k in w.workers || token in w.used then w
    else match Claim(w.db, d, channel, token, at)
      case Refused(_) => w
      case Committed(db) =>
        w.(db := db, used := w.used + {token},
          workers := w.workers[k := Looping(d, token, w.db.deliveries[d].nextPart)])
  }

  /** The checks of start_attempt. */
  function StartStep(w: World, k: nat): World {
    if k !in w.workers || !w.workers[k].Looping? then w
    else
      var x := w.workers[k];
      match StartCheck(w.db, x.delivery, x.token, x.part)
      case Denied(_) => Leave(w, k)
      case Resume(a) => TakeUp(w, k, x, a)
      case Fresh(number) => w.(workers := w.workers[k := Starting(x.delivery, x.token, x.part, number)])
  }

  /** The worker goes on with an attempt that is there. */
  function TakeUp(w: World, k: nat, x: Phase, a: nat): World
    requires a < |w.db.attempts|
  {
    w.(workers := w.workers[k := Busy(x.delivery, x.token, x.part, a, w.db.attempts[a].number, Sending)])
  }

  /** The row lands: the number drawn by the checks is still free. */
  function LandStep(w: World, k: nat, x: Phase): World
    requires x.Starting?
  {
    w.(db := InsertAttempt(w.db, x.delivery, x.part, x.number),
       workers := w.workers[k := Busy(x.delivery, x.token, x.part, |w.db.attempts|, x.number, Sending)])
  }

  /** The insert of start_attempt: it does not look at the claim again, only the unique key can refuse it. */
  function InsertStep(w: World, k: nat): World {
    if k !in w.workers || !w.workers[k].Starting? then w
    else
      var x := w.workers[k];
      if !NumberTaken(w.db, x.delivery, x.part, x.number) then LandStep(w, k, x)
      else match ActiveAttempt(w.db, x.delivery, x.part)
        case Some(a) => TakeUp(w, k, x, a)
        case None => Leave(w, k)
  }

  function LookRecoverStep(w: World, s: nat, d: nat): World {
    match LookAtClaim(w.db, d) case None => w case Some(look) => w.(looks := w.looks[s := AtClaim(look)])
  }

  function RecoverStep(w: World, s: nat, channel: string, cutoff: Time, at: Time): World {
    if s !in w.looks || !w.looks[s].AtClaim? then w
    else Settle(w.(looks := w.looks - {s}), RecoverCommit(w.db, w.looks[s].claim, channel, cutoff, at))
  }

  function PreSendFailureStep(w: World, k: nat, error: SendError): World {
    if k !in w.workers || !w.workers[k].Busy? || !w.workers[k].stage.Sending? then w
    else w.(workers := w.workers[k := w.workers[k].(stage := Failing(error))])
  }

  /** One send: the account is checked first, and only then is anything posted. */
  function SendStep(w: World, k: nat, content: string, account: AccountCheck, reply: Reply): World {
    if k !in w.workers || !w.workers[k].Busy? || !w.workers[k].stage.Sending?
      || w.workers[k].delivery >= |w.db.deliveries| then w
    else
      var x := w.workers[k];
      var r := w.db.deliveries[x.delivery];
      var sent := SendText(r.accountId, r.conversationId, content, account, reply);
      if !sent.posted then w.(workers := w.workers[k := x.(stage := Failing(sent.error.value))])
      else
        var stage := match sent.error case None => Accepted case Some(e) => Failing(e);
        w.(posts := w.posts + [Post(x.delivery, x.part, x.attempt, account.value, MayHaveEffect(reply))],
           workers := w.workers[k := x.(stage := stage)])
  }

  function MarkStep(w: World, k: nat, payload: string, at: Time, report: CommitReport): World {
    if k !in w.workers || !w.workers[k].Busy? || !w.workers[k].stage.Accepted? then w
    else
      var x := w.workers[k];
      var unsure := w.workers[k := x.(stage := Unsure)];
      match MarkPartDelivered(w.db, x.delivery, x.token, x.attempt, x.part, payload, at)
      case Refused(_) => w.(workers := unsure)
      case Committed(db) =>
        match report
        case LostAndRaised => w.(workers := unsure)
        case LandedButRaised => w.(db := db, workers := unsure)
        case Clean =>
          if db.deliveries[x.delivery].status.Delivering?
          then w.(db := db, workers := w.workers[k := Looping(x.delivery, x.token, x.part + 1)])
          else Leave(w.(db := db), k)
  }

  /** After a raised mark_part_delivered: look for the receipt, then for the row, then quarantine the attempt. */
  function ResolveStep(w: World, k: nat): World {
    if k !in w.workers || !w.workers[k].Busy? || !w.workers[k].stage.Unsure? then w
    else
      var x := w.workers[k];
      if x.delivery >= |w.db.deliveries| || !w.db.deliveries[x.delivery].status.Delivering? then Leave(w, k)
      else if (x.delivery, x.part) in w.db.receipts
      then w.(workers := w.workers[k := Looping(x.delivery, x.token, w.db.deliveries[x.delivery].nextPart)])
      else w.(workers := w.workers[k := x.(stage := Failing(UncertainError))])
  }

  function ClosingFor(error: SendError, number: nat, maxAttempts: nat, retryAt: Time): Closing {
    match Classify(error)
    case Retryable => if number < maxAttempts then Requeue(retryAt) else GiveUp
    case Permanent => GiveUp
    case Uncertain => Quarantine
  }

  function RecordFailureStep(w: World, k: nat, code: string, retryAt: Time, at: Time, maxAttempts: nat): World {
    if k !in w.workers || !w.workers[k].Busy? || !w.workers[k].stage.Failing? then w
    else
      var x := w.workers[k];
      match FinishAttempt(w.db, x.delivery, x.token, x.attempt,
                          ClosingFor(x.stage.error, x.number, maxAttempts, retryAt), code, at)
      case Refused(_) => Leave(w, k)
      case Committed(db) => Leave(w.(db := db), k)
  }

  function LookRetryStep(w: World, s: nat, d: nat, allowUncertain: bool): World {
    match LookAtStop(w.db, d, allowUncertain) case None => w case Some(look) => w.(looks := w.looks[s := AtStop(look)])
  }

  function Retried(w: World, d: nat, t: Txn): World
    requires t.Committed? ==> d < |w.db.deliveries|
  {
    match t
    case Refused(_) => w
    case Committed(db) =>
      var r := w.db.deliveries[d];
      w.(db := db, retries := w.retries + [ManualRetry(d, r.nextPart, r.status.Uncertain?)])
  }

  function RetryStep(w: World, s: nat, at: Time): World {
    if s !in w.looks || !w.looks[s].AtStop? then w
    else Retried(w.(looks := w.looks - {s}), w.looks[s].stop.delivery, RetryCommit(w.db, w.looks[s].stop, at))
  }

  function Settle(w: World, t: Txn): World {
    match t case Committed(db) => w.(db := db) case Refused(_) => w
  }

  function Step(w: World, act: Action, maxAttempts: nat): World {
    match act
    case DoEnqueue(rid, n, channel, account, conversation, at) =>
      Settle(w, Enqueue(w.db, rid, n, channel, account, conversation, at))
    case DoClaim(k, d, channel, token, at) => ClaimStep(w, k, d, channel, token, at)
    case DoLookRecover(s, d) => LookRecoverStep(w, s, d)
    case DoRecover(s, channel, cutoff, at) => RecoverStep(w, s, channel, cutoff, at)
    case DoStart(k) => StartStep(w, k)
    case DoInsert(k) => InsertStep(w, k)
    case DoPreSendFailure(k, e) => PreSendFailureStep(w, k, e)
    case DoSend(k, content, account, reply) => SendStep(w, k, content, account, reply)
    case DoMark(k, payload, at, report) => MarkStep(w, k, payload, at, report)
    case DoResolve(k) => ResolveStep(w, k)
    case DoRecordFailure(k, code, retryAt, at) => RecordFailureStep(w, k, code, retryAt, at, maxAttempts)
    case DoLookRetry(s, d, allow) => LookRetryStep(w, s, d, allow)
    case DoRetry(s, at) => RetryStep(w, s, at)
  }

  function Run(w: World, acts: seq<Action>, maxAttempts: nat): World
    decreases |acts|
  {
    if acts == [] then w else Run(Step(w, acts[0], maxAttempts), acts[1..], maxAttempts)
  }

  /** The insert gives the worker an attempt: it lands, or meets one in flight. */
  predicate HandsOut(db: Db, x: Phase)
    requires x.Starting?
  {
    !NumberTaken(db, x.delivery, x.part, x.number) || ActiveAttempt(db, x.delivery, x.part).Some?
  }

  /**
   No write relies on a read that has become false: an attempt is handed out while the claim stands, and recovery and
   retry commit while their looks hold.
   */
  predicate FencedStep(w: World, act: Action) {
    match act
    case DoInsert(k) =>
      k in w.workers && w.workers[k].Starting? && HandsOut(w.db, w.workers[k]) ==>
        Held(w.db, w.workers[k].delivery, w.workers[k].token)
    case DoRecover(s, channel, cutoff, at) =>
      s in w.looks && w.looks[s].AtClaim? && RecoverCommit(w.db, w.looks[s].claim, channel, cutoff, at).Committed? ==>
        LookHolds(w.db, w.looks[s].claim)
    case DoRetry(s, at) =>
      s in w.looks && w.looks[s].AtStop? && RetryCommit(w.db, w.looks[s].stop, at).Committed? ==>
        StopHolds(w.db, w.looks[s].stop)
    case _ => true
  }

  predicate FencedRun(w: World, acts: seq<Action>, maxAttempts: nat)
    decreases |acts|
  {
    acts == [] || (FencedStep(w, acts[0]) && FencedRun(Step(w, acts[0], maxAttempts), acts[1..], maxAttempts))
  }

  lemma RunCons(w: World, act: Action, rest: seq<Action>, m: nat)
    ensures Run(w, [act] + rest, m) == Run(Step(w, act, m), rest, m)
    ensures FencedRun(w, [act] + rest, m) <==> FencedStep(w, act) && FencedRun(Step(w, act, m), rest, m)
  {
    assert ([act] + rest)[1..] == rest;
  }

  lemma {:induction false} RunAppend(w: World, first: seq<Action>, second: seq<Action>, m: nat)
    ensures Run(w, first + second, m) == Run(Run(w, first, m), second, m)
    ensures FencedRun(w, first + second, m) <==> FencedRun(w, first, m) && FencedRun(Run(w, first, m), second, m)
    decreases |first|
  {
    if first == [] {
      assert first + second == second;
    } else {
      assert (first + second)[1..] == first[1..] + second;
      RunAppend(Step(w, first[0], m), first[1..], second, m);
    }
  }

  lemma RunSnoc(w: World, acts: seq<Action>, act: Action, m: nat)
    ensures Run(w, acts + [act], m) == Step(Run(w, acts, m), act, m)
    ensures FencedRun(w, acts + [act], m) <==> FencedRun(w, acts, m) && FencedStep(Run(w, acts, m), act)
  {
    RunAppend(w, acts, [act], m);
    var none: seq<Action> := [];
    assert [act] == [act] + none;
    RunCons(Run(w, acts, m), act, none, m);
  }
}
