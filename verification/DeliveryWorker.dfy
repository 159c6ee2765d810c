/**
 ChannelDeliveryWorker.run_once over the shared store, with other sessions running between any two of its statements.
 What the provider answers, what fails before the POST and how a commit reports back are left open.
 */
module DeliveryWorker {
  import opened Basics
  import opened DeliveryOutbox
  import opened DeliveryInvariant
  import opened ChannelSend
  import opened DeliveryProtocol
  import opened DeliverySafety
  import opened DeliveryClaims
  import opened DeliveryStore

  const RECEIPT_UNCERTAIN := "delivery_receipt_persistence_uncertain"
  const ATTEMPTS_EXHAUSTED := "delivery_attempts_exhausted"

  datatype RunResult = RunResult(delivery: nat, status: DeliveryStatus, nextPart: nat, claimCount: nat,
    error: Option<string>)

  /** How a call ends: nothing to do, a result, or an error raised because the claim was lost. */
  datatype RunEnd = Idle | Ran(result: RunResult) | Raised

  /** How a turn of the part loop ends. */
  datatype Turn = Next(part: nat) | Finished(error: Option<string>) | Lost

  /** The code a failure is recorded under: `code`, or that the attempts of a retryable failure are used up. */
  function RecordedCode(error: SendError, number: nat, maxAttempts: nat, code: string): string {
    if Classify(error).Retryable? && number >= maxAttempts then ATTEMPTS_EXHAUSTED else code
  }

  function Doubled(base: nat, times: nat): nat {
    if times == 0 then base else 2 * Doubled(base, times - 1)
  }

  /** Seconds until a retryable attempt runs again: doubling from the base, never beyond the cap. */
  function RetryDelay(base: nat, cap: nat, number: nat): (delay: nat)
    requires base <= cap
    ensures base <= delay <= cap
    ensures number <= 1 ==> delay == base
    ensures 0 < number ==> delay == base * Power(number - 1) || (delay == cap && cap < base * Power(number - 1))
  {
    var times := if number == 0 then 0 else number - 1;
    DoublingMultiplies(base, times);
    var uncapped := Doubled(base, times);
    if cap < uncapped then cap else uncapped
  }

  function Power(n: nat): nat {
    if n == 0 then 1 else 2 * Power(n - 1)
  }

  lemma {:induction false} DoublingMultiplies(base: nat, times: nat)
    ensures base <= Doubled(base, times) == base * Power(times)
  {
    if times > 0 {
      DoublingMultiplies(base, times - 1);
      assert base * (2 * Power(times - 1)) == 2 * (base * Power(times - 1));
    }
  }

  /** From one attempt to the next the delay doubles, until it reaches the cap and stays there. */
  lemma RetryDelayDoubles(base: nat, cap: nat, number: nat)
    requires 0 < number && base <= cap
    ensures var delay := RetryDelay(base, cap, number);
      RetryDelay(base, cap, number + 1) == if cap < 2 * delay then cap else 2 * delay
  {
    DoublingMultiplies(base, number - 1);
  }

  class ChannelDeliveryWorker {
    const store: OutboxStore
    const channel: string
    const retryBase: nat
    const retryCap: nat
    const claimTimeout: nat

    constructor (store: OutboxStore, channel: string, retryBase: nat, retryCap: nat, claimTimeout: nat)
      requires retryBase <= retryCap
      ensures this.store == store && this.channel == channel && this.claimTimeout == claimTimeout
      ensures this.retryBase == retryBase && this.retryCap == retryCap
    {
      this.store := store;
      this.channel := channel;
      this.retryBase, this.retryCap := retryBase, retryCap;
      this.claimTimeout := claimTimeout;
    }

    function Report(d: nat, error: Option<string>): RunResult
      requires d < |store.deliveries|
      reads store
    {
      var r := store.deliveries[d];
      RunResult(d, r.status, r.nextPart, r.claimCount, error)
    }

    /** The attempt is closed according to the class of its error and its number; without its claim this raises. */
    method RecordFailure(ghost k: nat, d: nat, token: Token, ghost part: nat, a: nat, number: nat, error: SendError,
                         code: string, now: Time)
      returns (turn: Turn)
      requires store.Valid() && k in store.State().workers && retryBase <= retryCap
      requires store.State().workers[k] == Busy(d, token, part, a, number, Failing(error))
      modifies store
      ensures store.Valid() && k !in store.State().workers
      ensures Settles(old(store.log), store.log, k, now)
      ensures turn == if old(Held(store.Tables(), d, token))
                      then Finished(Some(RecordedCode(error, number, store.maxAttempts, code))) else Lost
      ensures var how := ClosingFor(error, number, store.maxAttempts, now + RetryDelay(retryBase, retryCap, number));
              var recorded := RecordedCode(error, number, store.maxAttempts, code);
              turn.Finished? ==>
                FinishAttempt(old(store.Tables()), d, token, a, how, recorded, now) == Committed(store.Tables())
    {
      var retryAt := now + RetryDelay(retryBase, retryCap, number);
      var how, recorded := Quarantine, code;
      match Classify(error) {
        case Retryable =>
          how := if number < store.maxAttempts then Requeue(retryAt) else GiveUp;
          recorded := if number < store.maxAttempts then code else ATTEMPTS_EXHAUSTED;
        case Permanent => how := GiveUp;
        case Uncertain =>
      }
      var closed := store.FinishAttempt(k, d, token, a, how, recorded, now, retryAt);
      turn := if closed then Finished(Some(recorded)) else Lost;
    }

    /**
     One call delivers at most one response. Whatever happens, the call is a stretch of a protocol run, it terminates,
     and it leaves nothing of the worker behind. Before it claims, it tries to end every claim of its channel that is
     older than the timeout, and it ends no younger one. It is idle only when nothing is due or eight claims were lost.
     A result without an error is of a delivery that is no longer delivering.
     */
    method RunOnce(ghost k: nat, token: Token, now: Time) returns (end: RunEnd)
      requires store.Valid() && k !in store.State().workers && token !in store.State().used && retryBase <= retryCap
      modifies store
      ensures store.Valid() && k !in store.State().workers
      ensures Timely(old(store.log), store.log, k, channel, now - claimTimeout, now)
      ensures Spares(old(store.log), store.log, k, claimTimeout, now, store.maxAttempts)
      ensures var cutoff := now - claimTimeout;
              forall d: nat :: d < |old(store.deliveries)| && old(Stale(store.deliveries[d], channel, cutoff)) ==>
                Tried(old(store.log), store.log, k, d, channel, cutoff, now, store.maxAttempts)
      ensures end.Idle? ==>
                || ClaimsBy(old(store.log), store.log, k) >= 8
                || forall d: nat :: d < |store.deliveries| ==> !Claimable(store.deliveries[d], channel, now)
      ensures end.Ran? ==>
                && end.result.delivery < |store.deliveries|
                && end.result == Report(end.result.delivery, end.result.error)
                && (end.result.error.None? ==> !end.result.status.Delivering?)
    {
      ghost var cutoff := now - claimTimeout;
      var _ := store.RecoverStaleClaims(k, token, channel, now - claimTimeout, now);
      ghost var recovered := store.log;
      var claimed := store.ClaimNext(k, channel, token, now, cutoff);
      ghost var start := store.log;
      TimelyJoins(old(store.log), recovered, start, k, channel, cutoff, now);
      if claimed.None? {
        LongerStretchClaimsMore(old(store.log), recovered, start, k);
        end := Idle;
      } else {
        end := DeliverParts(k, claimed.value, token, now);
        TimelyJoins(old(store.log), start, store.log, k, channel, cutoff, now);
      }
      TimelyCallSpares(old(store.log), store.log, k, channel, claimTimeout, now, store.maxAttempts);
      forall d: nat | d < |old(store.deliveries)| && old(Stale(store.deliveries[d], channel, now - claimTimeout))
        ensures Tried(old(store.log), store.log, k, d, channel, cutoff, now, store.maxAttempts)
      {
        TriedStays(old(store.log), old(store.log), recovered, store.log, k, d, channel, cutoff, now, store.maxAttempts);
      }
    }

    /** The part loop of a claimed delivery; the clock has moved on by an unknown amount when a part is recorded. */
    method DeliverParts(ghost k: nat, d: nat, token: Token, now: Time) returns (end: RunEnd)
      requires store.Valid() && retryBase <= retryCap && Held(store.Tables(), d, token)
      requires k in store.State().workers && store.State().workers[k] == Looping(d, token, store.deliveries[d].nextPart)
      modifies store
      ensures store.Valid() && k !in store.State().workers && !end.Idle?
      ensures Timely(old(store.log), store.log, k, channel, now - claimTimeout, now)
      ensures end.Ran? ==>
                && end.result.delivery == d < |store.deliveries|
                && end.result == Report(d, end.result.error)
                && (end.result.error.None? ==> !end.result.status.Delivering?)
    {
      var turn := Next(store.deliveries[d].nextPart);
      assert RowOk(store.Tables(), d) by { store.ValidInv(); }
      ghost var rid := store.deliveries[d].responseId;
      ghost var total := store.responses[rid].partCount;
      while turn.Next?
        invariant store.Valid() && Timely(old(store.log), store.log, k, channel, now - claimTimeout, now)
        invariant turn.Next? ==>
                    && k in store.State().workers && store.State().workers[k] == Looping(d, token, turn.part)
                    && turn.part <= total
        invariant !turn.Next? ==> k !in store.State().workers
        invariant d < |store.deliveries| && store.deliveries[d].responseId == rid
        invariant rid in store.responses && store.responses[rid].partCount == total
        invariant turn == Finished(None) ==> !store.deliveries[d].status.Delivering?
        decreases if turn.Next? then total - turn.part + 1 else 0
      {
        ghost var before := store.log;
        var at: Time := *;
        if at < now { at := now; }
        turn := DeliverPart(k, d, token, turn.part, rid, at);
        SettledIsTimely(old(store.log), before, store.log, k, channel, now - claimTimeout, now, at);
        RowsStay(old(store.log), store.log, store.maxAttempts);
      }
      return if turn.Lost? then Raised else Ran(Report(d, turn.error));
    }

    /**
     One turn of the part loop: a later part to deliver, an end, or a lost claim. It ends without an error only when
     the receipt of this part is there and the delivery is no longer delivering.
     */
    method DeliverPart(ghost k: nat, d: nat, token: Token, part: nat, ghost rid: string, now: Time) returns (turn: Turn)
      requires store.Valid() && k in store.State().workers && retryBase <= retryCap
      requires store.State().workers[k] == Looping(d, token, part)
      requires d < |store.deliveries| && store.deliveries[d].responseId == rid && rid in store.responses
      modifies store
      ensures store.Valid() && Settles(old(store.log), store.log, k, now)
      ensures !turn.Next? ==> k !in store.State().workers
      ensures turn.Next? ==>
                && k in store.State().workers && store.State().workers[k] == Looping(d, token, turn.part)
                && part < turn.part <= old(store.responses[rid].partCount)
      ensures turn == Finished(None) ==>
                d < |store.deliveries| && (d, part) in store.receipts && !store.deliveries[d].status.Delivering?
    {
      var started, number, failure := SendPart(k, d, token, part);
      assert Settles(store.log, store.log, k, now);
      if started.None? {
        QuietThenSettles(old(store.log), store.log, store.log, k, now);
        return Lost;
      }
      ghost var known := store.log;
      var a := started.value;
      if failure.Some? {
        turn := RecordFailure(k, d, token, part, a, number, failure.value, "delivery_error", now);
      } else {
        turn := PersistReceipt(k, d, token, part, a, number, now);
      }
      QuietThenSettles(old(store.log), known, store.log, k, now);
      if turn.Next? {
        RowsStay(old(store.log), store.log, store.maxAttempts);
        assert RowOk(store.Tables(), d) by { store.ValidInv(); }
      }
    }

    /** An attempt of the part is started and sent; without the claim nothing is. */
    method SendPart(ghost k: nat, d: nat, token: Token, part: nat)
      returns (started: Option<nat>, number: nat, failure: Option<SendError>)
      requires store.Valid() && k in store.State().workers && store.State().workers[k] == Looping(d, token, part)
      modifies store
      ensures store.Valid() && Quiet(old(store.log), store.log, k)
      ensures started.None? ==> k !in store.State().workers
      ensures started.Some? ==>
                && k in store.State().workers
                && store.State().workers[k] == Busy(d, token, part, started.value, number,
                     if failure.Some? then Failing(failure.value) else Accepted)
    {
      store.Others(k, token);
      AbsentIsQuiet(old(store.log), store.log, k);
      failure := None;
      started, number := store.StartAttempt(k, d, token, part);
      if started.Some? {
        failure := Send(k, d, token, part, started.value, number);
        ghost var sent := store.log;
        store.Others(k, token);
        AbsentIsQuiet(sent, store.log, k);
      }
    }

    /** Something fails before the sender is called, or the sender checks the account, posts and is answered. */
    method Send(ghost k: nat, d: nat, token: Token, ghost part: nat, ghost a: nat,
                ghost number: nat) returns (failure: Option<SendError>)
      requires store.Valid() && k in store.State().workers
      requires store.State().workers[k] == Busy(d, token, part, a, number, Sending)
      modifies store
      ensures store.Valid() && Quiet(old(store.log), store.log, k) && k in store.State().workers
      ensures store.State().workers[k] ==
                Busy(d, token, part, a, number, if failure.Some? then Failing(failure.value) else Accepted)
    {
      store.Others(k, token);
      AbsentIsQuiet(old(store.log), store.log, k);
      failure := *;
      if failure.Some? {
        store.FailedBeforeSending(k, failure.value);
      } else {
        var content: string, account: AccountCheck, reply: Reply := *, *, *;
        Unlanded(store, k);
        var sent := SendText(store.deliveries[d].accountId, store.deliveries[d].conversationId, content, account,
          reply);
        store.Sends(k, content, account, reply);
        failure := sent.error;
      }
    }

    /** What the two steps after an accepted part promise. */
    ghost predicate Persisted(k: nat, d: nat, token: Token, part: nat, turn: Turn)
      reads store
    {
      && (!turn.Next? ==> k !in store.State().workers)
      && (turn.Next? ==>
            && part < turn.part && d < |store.deliveries| && turn.part == store.deliveries[d].nextPart
            && k in store.State().workers && store.State().workers[k] == Looping(d, token, turn.part))
      && (turn == Finished(None) ==>
            d < |store.deliveries| && (d, part) in store.receipts && !store.deliveries[d].status.Delivering?)
      && (turn.Finished? && turn.error.Some? ==> turn.error.value == RECEIPT_UNCERTAIN)
    }

    /** Persists the receipt of an accepted part. */
    method PersistReceipt(ghost k: nat, d: nat, token: Token, part: nat, a: nat, number: nat,
                          now: Time) returns (turn: Turn)
      requires store.Valid() && k in store.State().workers && retryBase <= retryCap
      requires store.State().workers[k] == Busy(d, token, part, a, number, Accepted)
      modifies store
      ensures store.Valid() && Persisted(k, d, token, part, turn)
      ensures Settles(old(store.log), store.log, k, now)
    {
      var report: CommitReport := *;
      Unlanded(store, k);
      if report.LostAndRaised? {
        store.MarkLost(k, "", now);
      } else {
        var marked := store.MarkPartDelivered(k, d, token, a, part, "", now, report);
        if marked && report.Clean? {
          return if store.deliveries[d].status.Delivering? then Next(part + 1) else Finished(None);
        }
      }
      ghost var unsure := store.log;
      turn := ResolveReceipt(k, d, token, part, a, number, now);
      SettlesJoins(old(store.log), unsure, store.log, k, now);
    }

    /** After an ambiguous commit the receipt table decides, then the delivery row, then the attempt is quarantined. */
    method ResolveReceipt(ghost k: nat, d: nat, token: Token, part: nat, a: nat, number: nat,
                          now: Time) returns (turn: Turn)
      requires store.Valid() && k in store.State().workers && retryBase <= retryCap
      requires store.State().workers[k] == Busy(d, token, part, a, number, Unsure)
      modifies store
      ensures store.Valid() && Persisted(k, d, token, part, turn)
      ensures Settles(old(store.log), store.log, k, now)
    {
      store.Others(k, token);
      AbsentIsQuiet(old(store.log), store.log, k);
      Unlanded(store, k);
      if (d, part) in store.receipts {
        store.Resolved(k);
        return if store.deliveries[d].status.Delivering? then Next(store.deliveries[d].nextPart) else Finished(None);
      }
      store.Resolved(k);
      if !store.deliveries[d].status.Delivering? { return Finished(Some(RECEIPT_UNCERTAIN)); }
      ghost var read := store.log;
      store.Others(k, token);
      AbsentIsQuiet(read, store.log, k);
      ghost var known := store.log;
      turn := RecordFailure(k, d, token, part, a, number, UncertainError, RECEIPT_UNCERTAIN, now);
      QuietThenSettles(old(store.log), known, store.log, k, now);
    }
  }

  /**
   What a worker with an attempt may rely on: its row exists, and a receipt for its part puts the row beyond that part.
   */
  lemma Unlanded(store: OutboxStore, k: nat)
    requires store.Valid() && k in store.State().workers && store.State().workers[k].Busy?
    ensures var x := store.State().workers[k];
            && x.delivery < |store.deliveries|
            && ((x.delivery, x.part) in store.receipts ==> x.part < store.deliveries[x.delivery].nextPart)
            && (Held(store.Tables(), x.delivery, x.token) && x.stage.Accepted? ==>
                  InFlight(store.Tables(), x.attempt) && x.part == store.deliveries[x.delivery].nextPart)
  {
    store.ValidInv();
    var x := store.State().workers[k];
    assert PhaseOk(store.State(), x);
    assert (x.delivery, x.part) in store.receipts ==> ReceiptOk(store.Tables(), x.delivery, x.part);
    assert InFlightOk(store.Tables(), x.attempt);
  }
}
