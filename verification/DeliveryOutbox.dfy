/**
 The four coupled tables of channel delivery and the transactions that DeliveryOutboxStore runs on them. Each function
 below is one transaction: it either commits a new database value or refuses and writes nothing. Where the store reads
 in one statement and writes in a later one, the two are separate and the write takes the look as an argument. Rows of
 delivery_outbox and delivery_attempts are identified by their position, which grows by one per insert.
 */
module DeliveryOutbox {
  import opened Basics

  datatype DeliveryStatus = Queued | Delivering | Delivered | Failed | Uncertain

  datatype AttemptStatus = Delivering | Delivered | Failed | Uncertain

  datatype ResponseStatus = Queued | Generated | Delivering | Delivered | Failed | Uncertain

  datatype Delivery = Delivery(
    responseId: string, channel: string, accountId: string, conversationId: string,
    status: DeliveryStatus, nextPart: nat, claimCount: nat,
    availableAt: Time, createdAt: Time,
    claimToken: Option<Token>, claimedAt: Option<Time>, completedAt: Option<Time>, lastError: Option<string>)

  datatype Attempt = Attempt(
    delivery: nat, part: nat, number: nat, status: AttemptStatus, error: Option<string>, completedAt: Option<Time>)

  datatype Receipt = Receipt(responseId: string, attempt: nat, payload: string, deliveredAt: Time)

  datatype Response = Response(partCount: nat, status: ResponseStatus, lastError: Option<string>)

  datatype Db = Db(
    deliveries: seq<Delivery>, attempts: seq<Attempt>,
    receipts: map<(nat, nat), Receipt>, responses: map<string, Response>)

  /**
   Why a transaction was refused. `ResponseConflict` is the guard on the response row, the others guard the delivery.
   */
  datatype Conflict =
    | NotPresent
    | NotClaimed
    | NotClaimable
    | WrongPart
    | NoMatchingAttempt
    | AttemptClosed
    | ReceiptExists
    | NotRetryable
    | ResponseConflict

  datatype Txn = Committed(db: Db) | Refused(reason: Conflict)

  const CLAIM_EXPIRED := "delivery_claim_expired"

  /** What the worker knows of a claim: the row is delivering and carries this token. */
  predicate Held(db: Db, d: nat, token: Token) {
    d < |db.deliveries| && db.deliveries[d].status.Delivering? && db.deliveries[d].claimToken == Some(token)
  }

  predicate Claimable(r: Delivery, channel: string, now: Time) {
    r.status.Queued? && r.channel == channel && r.availableAt <= now
  }

  predicate Stale(r: Delivery, channel: string, cutoff: Time) {
    r.channel == channel && r.status.Delivering? && r.claimToken.Some? && r.claimedAt.Some?
      && r.claimedAt.value <= cutoff
  }

  predicate InFlight(db: Db, a: nat) {
    a < |db.attempts| && db.attempts[a].status.Delivering?
  }

  /** The newest in-flight attempt of one part among the first `n` attempts. */
  function ActiveBelow(db: Db, d: nat, part: nat, n: nat): (r: Option<nat>)
    requires n <= |db.attempts|
    ensures r.Some? ==> r.value < n && InFlight(db, r.value)
                        && db.attempts[r.value].delivery == d && db.attempts[r.value].part == part
    ensures r.None? ==> forall a: nat :: a < n && InFlight(db, a) ==>
      db.attempts[a].delivery != d || db.attempts[a].part != part
  {
    if n == 0 then None
    else if db.attempts[n - 1].delivery == d && db.attempts[n - 1].part == part && db.attempts[n - 1].status.Delivering?
    then Some(n - 1)
    else ActiveBelow(db, d, part, n - 1)
  }

  function ActiveAttempt(db: Db, d: nat, part: nat): Option<nat> {
    ActiveBelow(db, d, part, |db.attempts|)
  }

  /** The largest attempt number of one part among the first `n` attempts, 0 when there is none. */
  function MaxNumberBelow(db: Db, d: nat, part: nat, n: nat): nat
    requires n <= |db.attempts|
  {
    if n == 0 then 0
    else
      var rest := MaxNumberBelow(db, d, part, n - 1);
      var t := db.attempts[n - 1];
      if t.delivery == d && t.part == part && t.number > rest then t.number else rest
  }

  function WithRow(db: Db, d: nat, r: Delivery, p: Response): Db
    requires d < |db.deliveries|
  {
    db.(deliveries := db.deliveries[d := r], responses := db.responses[r.responseId := p])
  }

  function Claim(db: Db, d: nat, channel: string, token: Token, now: Time): Txn {
    if d >= |db.deliveries| || !Claimable(db.deliveries[d], channel, now) then Refused(NotClaimable)
    else
      var r := db.deliveries[d];
      if r.responseId !in db.responses then Refused(ResponseConflict)
      else
        var p := db.responses[r.responseId];
        if !(p.status.Generated? || p.status.Delivering?) then Refused(ResponseConflict)
        else Committed(WithRow(db, d,
          r.(status := DeliveryStatus.Delivering, claimCount := r.claimCount + 1, claimToken := Some(token),
             claimedAt := Some(now), completedAt := None, lastError := None),
          p.(status := ResponseStatus.Delivering, lastError := None)))
  }

  /** What recovery reads before it writes: the claim, its next part and the attempt in flight there. */
  datatype ClaimLook = ClaimLook(delivery: nat, token: Token, part: nat, active: Option<nat>)

  function LookAtClaim(db: Db, d: nat): Option<ClaimLook> {
    if d >= |db.deliveries| || !db.deliveries[d].status.Delivering? || db.deliveries[d].claimToken.None? then None
    else
      var r := db.deliveries[d];
      Some(ClaimLook(d, r.claimToken.value, r.nextPart, ActiveAttempt(db, d, r.nextPart)))
  }

  /** The status of a response whose delivery waits in the queue at this part. */
  function WaitingStatus(part: nat): ResponseStatus {
    if part == 0 then ResponseStatus.Generated else ResponseStatus.Delivering
  }

  /**
   Ends the claim that was looked at, if it still stands and is stale: requeue when nothing was in flight, quarantine
   when something may have been sent. What was in flight, and at which part, is taken from the look.
   */
  function RecoverCommit(db: Db, look: ClaimLook, channel: string, cutoff: Time, now: Time): Txn {
    var d := look.delivery;
    if !Held(db, d, look.token) || !Stale(db.deliveries[d], channel, cutoff) then Refused(NotClaimed)
    else if look.active.Some? && !InFlight(db, look.active.value) then Refused(AttemptClosed)
    else
      var r := db.deliveries[d];
      if r.responseId !in db.responses || !db.responses[r.responseId].status.Delivering? then Refused(ResponseConflict)
      else
        var p := db.responses[r.responseId];
        match look.active
        case None =>
          Committed(WithRow(db, d,
            r.(status := DeliveryStatus.Queued, availableAt := now, claimToken := None, claimedAt := None,
               completedAt := None, lastError := None),
            p.(status := WaitingStatus(look.part), lastError := None)))
        case Some(a) =>
          var marked := db.(attempts := db.attempts[a := db.attempts[a].(
            status := AttemptStatus.Uncertain, error := Some(CLAIM_EXPIRED), completedAt := Some(now))]);
          Committed(WithRow(marked, d,
            r.(status := DeliveryStatus.Uncertain, availableAt := now, claimToken := None, claimedAt := None,
               completedAt := Some(now), lastError := Some(CLAIM_EXPIRED)),
            p.(status := ResponseStatus.Uncertain, lastError := Some(CLAIM_EXPIRED))))
  }

  /** The part that was looked at leads to the same response status as the part at the time of the write. */
  predicate SamePlace(part: nat, nextPart: nat) {
    part == 0 ==> nextPart == 0
  }

  /** What recovery saw of a claim still holds: where it saw nothing in flight there is nothing, in the same place. */
  predicate LookHolds(db: Db, look: ClaimLook) {
    Held(db, look.delivery, look.token) && look.active.None? ==>
      && ActiveAttempt(db, look.delivery, db.deliveries[look.delivery].nextPart).None?
      && SamePlace(look.part, db.deliveries[look.delivery].nextPart)
  }

  /** Recovery whose look is still current when it commits. */
  function Recover(db: Db, d: nat, channel: string, cutoff: Time, now: Time): Txn {
    match LookAtClaim(db, d)
    case None => Refused(NotClaimed)
    case Some(look) => RecoverCommit(db, look, channel, cutoff, now)
  }

  datatype StartDecision = Denied(reason: Conflict) | Resume(attempt: nat) | Fresh(number: nat)

  /** The checks of start_attempt, before it inserts. */
  function StartCheck(db: Db, d: nat, token: Token, part: nat): StartDecision {
    if d >= |db.deliveries| then Denied(NotPresent)
    else if !Held(db, d, token) then Denied(NotClaimed)
    else if part != db.deliveries[d].nextPart then Denied(WrongPart)
    else match ActiveAttempt(db, d, part)
      case Some(a) => Resume(a)
      case None => Fresh(MaxNumberBelow(db, d, part, |db.attempts|) + 1)
  }

  /** The unique key of the attempt table. */
  predicate NumberTaken(db: Db, d: nat, part: nat, number: nat) {
    exists a: nat :: a < |db.attempts| && db.attempts[a].delivery == d && db.attempts[a].part == part
      && db.attempts[a].number == number
  }

  function InsertAttempt(db: Db, d: nat, part: nat, number: nat): Db {
    db.(attempts := db.attempts + [Attempt(d, part, number, AttemptStatus.Delivering, None, None)])
  }

  function MarkPartDelivered(db: Db, d: nat, token: Token, a: nat, part: nat, payload: string, now: Time): Txn {
    if d >= |db.deliveries| then Refused(NotPresent)
    else if !Held(db, d, token) then Refused(NotClaimed)
    else
      var r := db.deliveries[d];
      if part != r.nextPart then Refused(WrongPart)
      else if a >= |db.attempts| || db.attempts[a].delivery != d || db.attempts[a].part != part
        then Refused(NoMatchingAttempt)
      else if !db.attempts[a].status.Delivering? then Refused(AttemptClosed)
      else if (d, part) in db.receipts then Refused(ReceiptExists)
      else if r.responseId !in db.responses then Refused(ResponseConflict)
      else
        var p := db.responses[r.responseId];
        var final := part + 1 == p.partCount;
        if final && !p.status.Delivering? then Refused(ResponseConflict)
        else
          var marked := db.(
            attempts := db.attempts[a := db.attempts[a].(status := AttemptStatus.Delivered, completedAt := Some(now))],
            receipts := db.receipts[(d, part) := Receipt(r.responseId, a, payload, now)]);
          if final then
            Committed(WithRow(marked, d,
              r.(nextPart := part + 1, status := DeliveryStatus.Delivered, claimToken := None, claimedAt := None,
                 completedAt := Some(now), lastError := None),
              p.(status := ResponseStatus.Delivered, lastError := None)))
          else
            Committed(WithRow(marked, d, r.(nextPart := part + 1), p))
  }

  /** How a failed attempt is closed: the three mark_attempt_* entry points of the store. */
  datatype Closing = Requeue(availableAt: Time) | GiveUp | Quarantine

  function FinishAttempt(db: Db, d: nat, token: Token, a: nat, how: Closing, error: string, now: Time): Txn {
    if d >= |db.deliveries| then Refused(NotPresent)
    else if !Held(db, d, token) then Refused(NotClaimed)
    else
      var r := db.deliveries[d];
      if a >= |db.attempts| || db.attempts[a].delivery != d || db.attempts[a].part != r.nextPart
        then Refused(NoMatchingAttempt)
      else if !db.attempts[a].status.Delivering? then Refused(AttemptClosed)
      else if r.responseId !in db.responses || (!how.Requeue? && !db.responses[r.responseId].status.Delivering?)
      then Refused(ResponseConflict)
      else
        var p := db.responses[r.responseId];
        var marked := db.(attempts := db.attempts[a := db.attempts[a].(
          status := if how.Quarantine? then AttemptStatus.Uncertain else AttemptStatus.Failed,
          error := Some(error), completedAt := Some(now))]);
        var closed := r.(claimToken := None, claimedAt := None, lastError := Some(error));
        match how
        case Requeue(at) =>
          Committed(WithRow(marked, d, closed.(status := DeliveryStatus.Queued, completedAt := None, availableAt := at),
            p))
        case GiveUp =>
          Committed(WithRow(marked, d, closed.(status := DeliveryStatus.Failed, completedAt := Some(now)),
            p.(status := ResponseStatus.Failed, lastError := Some(error))))
        case Quarantine =>
          Committed(WithRow(marked, d, closed.(status := DeliveryStatus.Uncertain, completedAt := Some(now)),
            p.(status := ResponseStatus.Uncertain, lastError := Some(error))))
  }

  /** What a manual retry reads before it writes. */
  datatype StopLook = StopLook(delivery: nat, status: DeliveryStatus, part: nat)

  function LookAtStop(db: Db, d: nat, allowUncertain: bool): Option<StopLook> {
    if d >= |db.deliveries| then None
    else
      var r := db.deliveries[d];
      if r.status.Failed? || (allowUncertain && r.status.Uncertain?) then Some(StopLook(d, r.status, r.nextPart))
        else None
  }

  /** Requeues the delivery if its status is still the one that was looked at. */
  function RetryCommit(db: Db, look: StopLook, at: Time): Txn {
    var d := look.delivery;
    if d >= |db.deliveries| || db.deliveries[d].status != look.status then Refused(NotRetryable)
    else
      var r := db.deliveries[d];
      if r.responseId !in db.responses then Refused(ResponseConflict)
      else
        var p := db.responses[r.responseId];
        if !(if look.status.Uncertain? then p.status.Uncertain? else p.status.Failed?) then Refused(ResponseConflict)
        else Committed(WithRow(db, d,
          r.(status := DeliveryStatus.Queued, availableAt := at, claimToken := None, claimedAt := None,
             completedAt := None, lastError := None),
          p.(status := WaitingStatus(look.part), lastError := None)))
  }

  predicate StopHolds(db: Db, look: StopLook) {
    look.delivery < |db.deliveries| && db.deliveries[look.delivery].status == look.status ==>
      SamePlace(look.part, db.deliveries[look.delivery].nextPart)
  }

  /** A retry whose look is still current when it commits. */
  function Retry(db: Db, d: nat, allowUncertain: bool, at: Time): Txn {
    if d >= |db.deliveries| then Refused(NotPresent)
    else match LookAtStop(db, d, allowUncertain)
      case None => Refused(NotRetryable)
      case Some(look) => RetryCommit(db, look, at)
  }

  /**
   A generated response and its delivery job, written together by the response store for an address without blanks.
   */
  function Enqueue(db: Db, responseId: string, partCount: nat, channel: string, accountId: string,
                   conversationId: string, now: Time): Txn {
    if responseId in db.responses || partCount == 0 then Refused(ResponseConflict)
    else if channel == "" || accountId == "" || conversationId == "" then Refused(NotPresent)
    else Committed(db.(
      deliveries := db.deliveries + [Delivery(responseId, channel, accountId, conversationId, DeliveryStatus.Queued,
        0, 0, now, now, None, None, None, None)],
      responses := db.responses[responseId := Response(partCount, ResponseStatus.Generated, None)]))
  }
}
