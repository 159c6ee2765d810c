/** What every delivery transaction keeps about the four tables taken together. */
module DeliveryInvariant {
  import opened Basics
  import opened DeliveryOutbox

  /** The response row follows the delivery row. */
  predicate Follows(r: Delivery, response: ResponseStatus) {
    match r.status
    case Queued => response.Delivering? || (response.Generated? && r.nextPart == 0)
    case Delivering => response.Delivering?
    case Delivered => response.Delivered?
    case Failed => response.Failed?
    case Uncertain => response.Uncertain?
  }

  ghost predicate RowOk(db: Db, d: nat)
    requires d < |db.deliveries|
  {
    var r := db.deliveries[d];
    && r.responseId in db.responses
    && var p := db.responses[r.responseId];
    && 0 < p.partCount
    && r.conversationId != ""
    && r.nextPart <= p.partCount
    && (r.status.Delivering? <==> r.claimToken.Some?)
    && (r.claimToken.Some? <==> r.claimedAt.Some?)
    && (r.status.Delivered? <==> r.nextPart == p.partCount)
    && (r.completedAt.Some? <==> r.status.Delivered? || r.status.Failed? || r.status.Uncertain?)
    && Follows(r, p.status)
  }

  ghost predicate RowsOk(db: Db) {
    && (forall d: nat :: d < |db.deliveries| ==> RowOk(db, d))
    && (forall d: nat, e: nat :: d < e < |db.deliveries| ==> db.deliveries[d].responseId != db.deliveries[e].responseId)
  }

  /** How many of the first `n` attempts belong to one part. */
  function CountPart(attempts: seq<Attempt>, d: nat, part: nat, n: nat): nat
    requires n <= |attempts|
  {
    if n == 0 then 0
    else
      var here := if attempts[n - 1].delivery == d && attempts[n - 1].part == part then 1 else 0;
      CountPart(attempts, d, part, n - 1) + here
  }

  ghost predicate AttemptOk(db: Db, a: nat)
    requires a < |db.attempts|
  {
    var t := db.attempts[a];
    && t.delivery < |db.deliveries|
    && var r := db.deliveries[t.delivery];
    && r.responseId in db.responses
    && t.part < db.responses[r.responseId].partCount
    && t.part <= r.nextPart
    && (t.status.Delivered? ==> (t.delivery, t.part) in db.receipts && db.receipts[(t.delivery, t.part)].attempt == a)
  }

  /**
   An in-flight attempt sits at the next part of a claimed delivery and is the delivery's newest attempt, hence the only
   one.
   */
  ghost predicate InFlightOk(db: Db, a: nat)
    requires a < |db.attempts|
  {
    var t := db.attempts[a];
    t.status.Delivering? ==>
      && t.delivery < |db.deliveries|
      && db.deliveries[t.delivery].status.Delivering?
      && t.part == db.deliveries[t.delivery].nextPart
      && forall b: nat :: a < b < |db.attempts| ==> db.attempts[b].delivery != t.delivery
  }

  ghost predicate AttemptsOk(db: Db) {
    && (forall a: nat :: a < |db.attempts| ==> AttemptOk(db, a))
    && (forall a: nat :: a < |db.attempts| ==> InFlightOk(db, a))
  }

  /** The attempts of each part are numbered 1, 2, ... in the order they were started. */
  ghost predicate Numbered(attempts: seq<Attempt>) {
    forall a: nat :: a < |attempts| ==>
      attempts[a].number == CountPart(attempts, attempts[a].delivery, attempts[a].part, a + 1)
  }

  /** Receipts are exactly the parts below next_part_ordinal, each tied to the delivered attempt it came from. */
  ghost predicate ReceiptOk(db: Db, d: nat, part: nat)
    requires (d, part) in db.receipts
  {
    var c := db.receipts[(d, part)];
    && d < |db.deliveries|
    && part < db.deliveries[d].nextPart
    && c.responseId == db.deliveries[d].responseId
    && c.attempt < |db.attempts|
    && db.attempts[c.attempt].delivery == d
    && db.attempts[c.attempt].part == part
    && db.attempts[c.attempt].status.Delivered?
  }

  ghost predicate ReceiptsOk(db: Db) {
    && (forall d: nat, part: nat :: (d, part) in db.receipts ==> ReceiptOk(db, d, part))
    && (forall d: nat, part: nat :: d < |db.deliveries| && part < db.deliveries[d].nextPart ==>
          (d, part) in db.receipts)
  }

  ghost predicate DbInv(db: Db) {
    RowsOk(db) && AttemptsOk(db) && Numbered(db.attempts) && ReceiptsOk(db)
  }

  // ----- Consequences -----

  /** A held delivery with nothing in flight, and the converse reading of the active-attempt query. */
  ghost predicate Idle(db: Db, d: nat) {
    forall a: nat :: InFlight(db, a) ==> db.attempts[a].delivery != d
  }

  lemma ActiveFindsInFlight(db: Db, d: nat)
    requires DbInv(db) && d < |db.deliveries|
    ensures ActiveAttempt(db, d, db.deliveries[d].nextPart).None? <==> Idle(db, d)
  {
    forall a: nat | InFlight(db, a) && db.attempts[a].delivery == d
      ensures db.attempts[a].part == db.deliveries[d].nextPart
    {
      assert InFlightOk(db, a);
    }
  }

  // ----- Preservation -----

  /**
   Changing the state of one delivery, with its part counter kept and nothing of it left in flight unless it stays
   claimed.
   */
  lemma RowChangeKeeps(db: Db, d: nat, r: Delivery, p: Response)
    requires DbInv(db) && d < |db.deliveries|
    requires r.responseId == db.deliveries[d].responseId && r.nextPart == db.deliveries[d].nextPart
    requires r.responseId in db.responses && p.partCount == db.responses[r.responseId].partCount
    requires RowOk(WithRow(db, d, r, p), d)
    requires r.status.Delivering? || Idle(db, d)
    ensures DbInv(WithRow(db, d, r, p))
  {
    var db' := WithRow(db, d, r, p);
    forall e: nat | e < |db'.deliveries| ensures RowOk(db', e) {
      assert RowOk(db, e);
    }
    forall a: nat | a < |db'.attempts| ensures AttemptOk(db', a) && InFlightOk(db', a) {
      assert AttemptOk(db, a) && InFlightOk(db, a);
      assert RowOk(db, db.attempts[a].delivery);
    }
    forall e: nat, part: nat | (e, part) in db'.receipts ensures ReceiptOk(db', e, part) {
      assert ReceiptOk(db, e, part);
    }
  }

  /** Closing the in-flight attempt without a receipt: only its status, error and completion time change. */
  ghost predicate Closes(db: Db, a: nat, t: Attempt)
  {
    && InFlight(db, a)
    && (t.status.Failed? || t.status.Uncertain?)
    && t.delivery == db.attempts[a].delivery && t.part == db.attempts[a].part && t.number == db.attempts[a].number
  }

  lemma CloseKeeps(db: Db, a: nat, t: Attempt)
    requires DbInv(db) && Closes(db, a, t)
    ensures var db' := db.(attempts := db.attempts[a := t]); DbInv(db') && Idle(db', t.delivery)
  {
    var db' := db.(attempts := db.attempts[a := t]);
    forall d: nat | d < |db'.deliveries| ensures RowOk(db', d) {
      assert RowOk(db, d);
    }
    forall b: nat | b < |db'.attempts| ensures AttemptOk(db', b) && InFlightOk(db', b) {
      assert AttemptOk(db, b) && InFlightOk(db, b);
    }
    assert InFlightOk(db, a);
    forall b: nat | InFlight(db', b) ensures db'.attempts[b].delivery != t.delivery {
      assert InFlightOk(db, b);
    }
    SameNumbers(db.attempts, db'.attempts);
    forall e: nat, part: nat | (e, part) in db'.receipts ensures ReceiptOk(db', e, part) {
      assert ReceiptOk(db, e, part);
    }
  }

  /** Counting looks only at which part an attempt belongs to. */
  lemma {:induction false} SameCount(s: seq<Attempt>, t: seq<Attempt>, d: nat, part: nat, n: nat)
    requires n <= |s| && n <= |t|
    requires forall a: nat :: a < n ==> s[a].delivery == t[a].delivery && s[a].part == t[a].part
    ensures CountPart(s, d, part, n) == CountPart(t, d, part, n)
  {
    if n > 0 { SameCount(s, t, d, part, n - 1); }
  }

  lemma SameNumbers(s: seq<Attempt>, t: seq<Attempt>)
    requires Numbered(s) && |s| == |t|
    requires forall a: nat :: a < |s| ==>
      s[a].delivery == t[a].delivery && s[a].part == t[a].part && s[a].number == t[a].number
    ensures Numbered(t)
  {
    forall a: nat | a < |t| ensures t[a].number == CountPart(t, t[a].delivery, t[a].part, a + 1) {
      SameCount(s, t, t[a].delivery, t[a].part, a + 1);
    }
  }

  lemma ClaimKeeps(db: Db, d: nat, channel: string, token: Token, now: Time)
    requires DbInv(db)
    ensures var t := Claim(db, d, channel, token, now);
            && t != Refused(ResponseConflict)
            && (t.Committed? ==> DbInv(t.db))
  {
    if d < |db.deliveries| {
      var t := Claim(db, d, channel, token, now);
      assert RowOk(db, d);
      if t.Committed? {
        RowChangeKeeps(db, d, t.db.deliveries[d], t.db.responses[db.deliveries[d].responseId]);
      }
    }
  }

  lemma RecoverKeeps(db: Db, d: nat, channel: string, cutoff: Time, now: Time)
    requires DbInv(db)
    ensures var t := Recover(db, d, channel, cutoff, now);
            && t != Refused(ResponseConflict)
            && (t.Committed? ==> DbInv(t.db) && Idle(t.db, d))
  {
    if d < |db.deliveries| && Stale(db.deliveries[d], channel, cutoff) {
      assert RowOk(db, d);
      var t := Recover(db, d, channel, cutoff, now);
      var r := db.deliveries[d];
      ActiveFindsInFlight(db, d);
      var marked := db;
      match ActiveAttempt(db, d, r.nextPart) {
        case None =>
        case Some(a) =>
          CloseKeeps(db, a, t.db.attempts[a]);
          marked := db.(attempts := t.db.attempts);
          assert RowOk(marked, d);
      }
      RowChangeKeeps(marked, d, t.db.deliveries[d], t.db.responses[r.responseId]);
    }
  }

  lemma RetryKeeps(db: Db, d: nat, allowUncertain: bool, at: Time)
    requires DbInv(db)
    ensures var t := Retry(db, d, allowUncertain, at);
            && t != Refused(ResponseConflict)
            && (t.Committed? ==> DbInv(t.db) && Idle(t.db, d))
  {
    if d < |db.deliveries| {
      assert RowOk(db, d);
      var t := Retry(db, d, allowUncertain, at);
      if t.Committed? {
        forall a: nat | InFlight(db, a) ensures db.attempts[a].delivery != d {
          assert InFlightOk(db, a);
        }
        RowChangeKeeps(db, d, t.db.deliveries[d], t.db.responses[db.deliveries[d].responseId]);
      }
    }
  }

  lemma FinishKeeps(db: Db, d: nat, token: Token, a: nat, how: Closing, error: string, now: Time)
    requires DbInv(db)
    ensures var t := FinishAttempt(db, d, token, a, how, error, now);
            && t != Refused(ResponseConflict)
            && (t.Committed? ==> DbInv(t.db) && Idle(t.db, d))
  {
    var t := FinishAttempt(db, d, token, a, how, error, now);
    if d < |db.deliveries| {
      assert RowOk(db, d);
      if t.Committed? {
        CloseKeeps(db, a, t.db.attempts[a]);
        var marked := db.(attempts := t.db.attempts);
        assert RowOk(marked, d);
        RowChangeKeeps(marked, d, t.db.deliveries[d], t.db.responses[db.deliveries[d].responseId]);
      }
    }
  }

  lemma InsertKeeps(db: Db, d: nat, part: nat, number: nat)
    requires DbInv(db)
    requires d < |db.deliveries| && db.deliveries[d].status.Delivering? && part == db.deliveries[d].nextPart
      && Idle(db, d)
    requires number == MaxNumberBelow(db, d, part, |db.attempts|) + 1
    ensures DbInv(InsertAttempt(db, d, part, number))
  {
    var db' := InsertAttempt(db, d, part, number);
    var n := |db.attempts|;
    assert RowOk(db, d);
    forall e: nat | e < |db'.deliveries| ensures RowOk(db', e) {
      assert RowOk(db, e);
    }
    forall b: nat | b < |db'.attempts| ensures AttemptOk(db', b) && InFlightOk(db', b) {
      if b < n {
        assert AttemptOk(db, b) && InFlightOk(db, b);
        assert InFlight(db, b) ==> db.attempts[b].delivery != d;
      }
    }
    NumbersExtend(db, d, part, number);
    forall e: nat, p: nat | (e, p) in db'.receipts ensures ReceiptOk(db', e, p) {
      assert ReceiptOk(db, e, p);
    }
  }

  lemma NumbersExtend(db: Db, d: nat, part: nat, number: nat)
    requires Numbered(db.attempts)
    requires number == MaxNumberBelow(db, d, part, |db.attempts|) + 1
    ensures Numbered(InsertAttempt(db, d, part, number).attempts)
  {
    var s, t := db.attempts, InsertAttempt(db, d, part, number).attempts;
    forall a: nat | a < |t| ensures t[a].number == CountPart(t, t[a].delivery, t[a].part, a + 1) {
      if a < |s| {
        SameCount(s, t, t[a].delivery, t[a].part, a + 1);
      } else {
        SameCount(s, t, d, part, |s|);
        MaxIsCount(db, d, part, |s|);
      }
    }
  }

  /** With attempts numbered 1, 2, ... the largest number of a part is how many attempts it has. */
  lemma {:induction false} MaxIsCount(db: Db, d: nat, part: nat, n: nat)
    requires Numbered(db.attempts) && n <= |db.attempts|
    ensures MaxNumberBelow(db, d, part, n) == CountPart(db.attempts, d, part, n)
  {
    if n > 0 { MaxIsCount(db, d, part, n - 1); }
  }

  /** What a committed receipt does: the in-flight attempt becomes delivered and the part counter moves past it. */
  ghost predicate Advances(db: Db, db': Db, d: nat, a: nat, t: Attempt, c: Receipt, r: Delivery, p: Response) {
    && d < |db.deliveries|
    && InFlight(db, a) && db.attempts[a].delivery == d && db.attempts[a].part == db.deliveries[d].nextPart
    && t.delivery == d && t.part == db.attempts[a].part && t.number == db.attempts[a].number && t.status.Delivered?
    && c.attempt == a && c.responseId == db.deliveries[d].responseId
    && r.responseId == db.deliveries[d].responseId && r.nextPart == t.part + 1
    && r.responseId in db.responses && p.partCount == db.responses[r.responseId].partCount
    && db' == Db(db.deliveries[d := r], db.attempts[a := t], db.receipts[(d, t.part) := c],
       db.responses[r.responseId := p])
    && RowOk(db', d)
  }

  lemma AdvanceKeepsRows(db: Db, db': Db, d: nat, a: nat, t: Attempt, c: Receipt, r: Delivery, p: Response)
    requires DbInv(db) && Advances(db, db', d, a, t, c, r, p)
    ensures RowsOk(db')
  {
    forall e: nat | e < |db'.deliveries| ensures RowOk(db', e) {
      assert RowOk(db, e);
    }
  }

  lemma AdvanceKeepsAttempts(db: Db, db': Db, d: nat, a: nat, t: Attempt, c: Receipt, r: Delivery, p: Response)
    requires DbInv(db) && Advances(db, db', d, a, t, c, r, p)
    ensures AttemptsOk(db') && Numbered(db'.attempts) && Idle(db', d)
  {
    assert forall e: nat, part: nat :: (e, part) in db.receipts ==> ReceiptOk(db, e, part);
    assert AttemptOk(db, a) && InFlightOk(db, a);
    forall b: nat | b < |db'.attempts|
      ensures AttemptOk(db', b) && InFlightOk(db', b) && (InFlight(db', b) ==> db'.attempts[b].delivery != d)
    {
      assert AttemptOk(db, b) && InFlightOk(db, b);
      assert RowOk(db, db.attempts[b].delivery);
    }
    SameNumbers(db.attempts, db'.attempts);
  }

  lemma AdvanceKeepsReceipts(db: Db, db': Db, d: nat, a: nat, t: Attempt, c: Receipt, r: Delivery, p: Response)
    requires DbInv(db) && Advances(db, db', d, a, t, c, r, p)
    ensures ReceiptsOk(db')
  {
    forall e: nat, q: nat | (e, q) in db'.receipts ensures ReceiptOk(db', e, q) {
      if (e, q) != (d, t.part) { assert ReceiptOk(db, e, q); }
    }
    forall e: nat, q: nat | e < |db'.deliveries| && q < db'.deliveries[e].nextPart ensures (e, q) in db'.receipts {
      assert (e, q) == (d, t.part) || (e, q) in db.receipts;
    }
  }

  lemma MarkKeeps(db: Db, d: nat, token: Token, a: nat, part: nat, payload: string, now: Time)
    requires DbInv(db)
    ensures var t := MarkPartDelivered(db, d, token, a, part, payload, now);
            && t != Refused(ResponseConflict)
            && (t.Committed? ==> DbInv(t.db) && Idle(t.db, d))
  {
    var t := MarkPartDelivered(db, d, token, a, part, payload, now);
    if d < |db.deliveries| {
      assert RowOk(db, d);
      if t.Committed? {
        var db' := t.db;
        var r := db'.deliveries[d];
        var p := db'.responses[r.responseId];
        assert Advances(db, db', d, a, db'.attempts[a], db'.receipts[(d, part)], r, p);
        AdvanceKeepsRows(db, db', d, a, db'.attempts[a], db'.receipts[(d, part)], r, p);
        AdvanceKeepsAttempts(db, db', d, a, db'.attempts[a], db'.receipts[(d, part)], r, p);
        AdvanceKeepsReceipts(db, db', d, a, db'.attempts[a], db'.receipts[(d, part)], r, p);
      }
    }
  }

  lemma EnqueueKeeps(db: Db, rid: string, n: nat, channel: string, account: string, conversation: string, now: Time)
    requires DbInv(db)
    ensures var t := Enqueue(db, rid, n, channel, account, conversation, now); t.Committed? ==> DbInv(t.db)
  {
    var t := Enqueue(db, rid, n, channel, account, conversation, now);
    if t.Committed? {
      var db' := t.db;
      forall e: nat | e < |db'.deliveries| ensures RowOk(db', e) {
        if e < |db.deliveries| { assert RowOk(db, e); }
      }
      forall e: nat | e < |db.deliveries| ensures db.deliveries[e].responseId != rid {
        assert RowOk(db, e);
      }
      forall b: nat | b < |db'.attempts| ensures AttemptOk(db', b) && InFlightOk(db', b) {
        assert AttemptOk(db, b) && InFlightOk(db, b);
        assert RowOk(db, db.attempts[b].delivery);
      }
      forall e: nat, p: nat | (e, p) in db'.receipts ensures ReceiptOk(db', e, p) {
        assert ReceiptOk(db, e, p);
      }
    }
  }

  // ----- What the tables promise, and which writes keep the promise -----

  ghost predicate RowAgrees(db: Db, d: nat)
    requires d < |db.deliveries|
  {
    var r := db.deliveries[d];
    && r.responseId in db.responses
    && (r.status.Delivering? <==> r.claimToken.Some?)
    && (r.status.Delivered? <==> r.nextPart == db.responses[r.responseId].partCount)
    && Follows(r, db.responses[r.responseId].status)
  }

  /** The receipts of a delivery are exactly its parts below the counter, each for the part's only delivered attempt. */
  ghost predicate ReceiptsAgree(db: Db, d: nat)
    requires d < |db.deliveries|
  {
    && (forall part: nat :: (d, part) in db.receipts <==> part < db.deliveries[d].nextPart)
    && (forall part: nat, a: nat :: (d, part) in db.receipts && a < |db.attempts| ==>
          (db.receipts[(d, part)].attempt == a <==>
             db.attempts[a].delivery == d && db.attempts[a].part == part && db.attempts[a].status.Delivered?))
  }

  /** An attempt in flight is the only one of its delivery, at the counter, under a claim. */
  ghost predicate FlightAgrees(db: Db, a: nat)
    requires a < |db.attempts|
  {
    var t := db.attempts[a];
    t.status.Delivering? ==>
      && t.delivery < |db.deliveries| && db.deliveries[t.delivery].claimToken.Some?
         && t.part == db.deliveries[t.delivery].nextPart
      && (forall b: nat :: InFlight(db, b) && db.attempts[b].delivery == t.delivery ==> b == a)
  }

  /** The four tables agree. */
  ghost predicate Agrees(db: Db) {
    && (forall d: nat :: d < |db.deliveries| ==> RowAgrees(db, d) && ReceiptsAgree(db, d))
    && (forall a: nat :: a < |db.attempts| ==> FlightAgrees(db, a))
  }

  lemma InvAgrees(db: Db)
    requires DbInv(db)
    ensures Agrees(db)
  {
    forall d: nat | d < |db.deliveries| ensures RowAgrees(db, d) && ReceiptsAgree(db, d) {
      assert RowOk(db, d);
      ReceiptsAgreeOf(db, d);
    }
    forall a: nat | a < |db.attempts| ensures FlightAgrees(db, a) {
      assert InFlightOk(db, a);
      if InFlight(db, a) {
        assert RowOk(db, db.attempts[a].delivery);
        forall b: nat | InFlight(db, b) && db.attempts[b].delivery == db.attempts[a].delivery ensures b == a {
          assert InFlightOk(db, b);
        }
      }
    }
  }

  lemma ReceiptsAgreeOf(db: Db, d: nat)
    requires DbInv(db) && d < |db.deliveries|
    ensures ReceiptsAgree(db, d)
  {
    forall part: nat ensures (d, part) in db.receipts <==> part < db.deliveries[d].nextPart {
      if (d, part) in db.receipts { assert ReceiptOk(db, d, part); }
    }
    forall part: nat, a: nat | (d, part) in db.receipts && a < |db.attempts|
      ensures db.receipts[(d, part)].attempt == a <==>
                db.attempts[a].delivery == d && db.attempts[a].part == part && db.attempts[a].status.Delivered?
    {
      assert ReceiptOk(db, d, part);
      assert AttemptOk(db, a);
    }
  }

  /** What stays true of every look: the attempt it saw belongs to its delivery, and the counter has not gone back. */
  predicate LookOk(db: Db, look: ClaimLook) {
    && look.delivery < |db.deliveries| && look.part <= db.deliveries[look.delivery].nextPart
    && (look.active.Some? ==>
          look.active.value < |db.attempts| && db.attempts[look.active.value].delivery == look.delivery)
  }

  predicate StopOk(db: Db, look: StopLook) {
    look.delivery < |db.deliveries| && look.part <= db.deliveries[look.delivery].nextPart
  }

  /** While its look holds, recovery does what it would do if it looked again. */
  lemma CurrentRecovery(db: Db, look: ClaimLook, channel: string, cutoff: Time, now: Time)
    requires DbInv(db) && LookOk(db, look) && LookHolds(db, look)
    requires RecoverCommit(db, look, channel, cutoff, now).Committed?
    ensures RecoverCommit(db, look, channel, cutoff, now) == Recover(db, look.delivery, channel, cutoff, now)
  {
    var d := look.delivery;
    if look.active.Some? {
      var a := look.active.value;
      var b := ActiveAttempt(db, d, db.deliveries[d].nextPart);
      assert InFlightOk(db, a);
      assert b.Some? && InFlightOk(db, b.value);
    }
  }

  /** Recovery leaves the tables in agreement exactly when what it saw still holds as it commits. */
  lemma RecoveryAgreesIff(db: Db, look: ClaimLook, channel: string, cutoff: Time, now: Time)
    requires DbInv(db) && LookOk(db, look) && RecoverCommit(db, look, channel, cutoff, now).Committed?
    ensures Agrees(RecoverCommit(db, look, channel, cutoff, now).db) <==> LookHolds(db, look)
  {
    var d := look.delivery;
    var db' := RecoverCommit(db, look, channel, cutoff, now).db;
    if LookHolds(db, look) {
      CurrentRecovery(db, look, channel, cutoff, now);
      RecoverKeeps(db, d, channel, cutoff, now);
      InvAgrees(db');
    } else {
      var active := ActiveAttempt(db, d, db.deliveries[d].nextPart);
      assert !RowAgrees(db', d) || (active.Some? && !FlightAgrees(db', active.value));
    }
  }

  lemma CurrentRetry(db: Db, look: StopLook, at: Time)
    requires DbInv(db) && StopOk(db, look) && StopHolds(db, look) && RetryCommit(db, look, at).Committed?
    ensures RetryCommit(db, look, at) == Retry(db, look.delivery, look.status.Uncertain?, at)
  {
    assert RowOk(db, look.delivery);
  }

  /**
   A manual retry leaves the tables in agreement exactly when the part it saw still leads to the same response status.
   */
  lemma RetryAgreesIff(db: Db, look: StopLook, at: Time)
    requires DbInv(db) && StopOk(db, look) && RetryCommit(db, look, at).Committed?
    ensures Agrees(RetryCommit(db, look, at).db) <==> StopHolds(db, look)
  {
    var db' := RetryCommit(db, look, at).db;
    if StopHolds(db, look) {
      CurrentRetry(db, look, at);
      RetryKeeps(db, look.delivery, look.status.Uncertain?, at);
      InvAgrees(db');
    } else {
      assert !RowAgrees(db', look.delivery);
    }
  }

  /** An insert leaves the tables in agreement exactly when some claim stands at its part with nothing in flight. */
  lemma InsertAgreesIff(db: Db, d: nat, part: nat, number: nat)
    requires DbInv(db) && d < |db.deliveries|
    ensures Agrees(InsertAttempt(db, d, part, number)) <==>
      db.deliveries[d].claimToken.Some? && part == db.deliveries[d].nextPart && Idle(db, d)
  {
    var db' := InsertAttempt(db, d, part, number);
    var n := |db.attempts|;
    InvAgrees(db);
    if Agrees(db') {
      assert FlightAgrees(db', n);
      forall a: nat | InFlight(db, a) ensures db.attempts[a].delivery != d {
        assert InFlight(db', a) && db'.attempts[a] == db.attempts[a];
      }
    }
    if db.deliveries[d].claimToken.Some? && part == db.deliveries[d].nextPart && Idle(db, d) {
      forall e: nat | e < |db'.deliveries| ensures RowAgrees(db', e) && ReceiptsAgree(db', e) {
        assert RowAgrees(db, e) && ReceiptsAgree(db, e);
        assert forall p: nat :: (e, p) in db.receipts ==> ReceiptOk(db, e, p);
      }
      forall a: nat | a < |db'.attempts| ensures FlightAgrees(db', a) {
        if a < n { assert FlightAgrees(db, a); }
      }
    }
  }
}
