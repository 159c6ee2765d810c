/**
 DeliveryOutboxStore as an object over the four tables, shared with other sessions. The ghost `log` is the run that
 produced the tables; every method appends the protocol actions it performed, so whatever holds of every fenced run
 holds of the tables. `Others` stands for whatever other sessions commit between two statements of ours. Between a read
 and the write that relies on it other sessions run too, but fenced: they leave alone what was read. That is an
 assumption about the environment which the code does not enforce; DeliveryTheorems and DeliveryRaces say what happens
 without it.
 */
module DeliveryStore {
  import opened Basics
  import opened DeliveryOutbox
  import opened DeliveryInvariant
  import opened ChannelSend
  import opened DeliveryProtocol
  import opened DeliverySafety
  import opened DeliveryClaims

  /** Queue order: available_at, then created_at; the identifier breaks ties. */
  predicate Before(x: Delivery, y: Delivery) {
    x.availableAt < y.availableAt || (x.availableAt == y.availableAt && x.createdAt < y.createdAt)
  }

  /** The first claimable delivery among the first `n` rows in queue order. */
  function NextClaimable(rows: seq<Delivery>, channel: string, now: Time, n: nat): (r: Option<nat>)
    requires n <= |rows|
    ensures r.None? ==> forall d: nat :: d < n ==> !Claimable(rows[d], channel, now)
    ensures r.Some? ==> r.value < n && Claimable(rows[r.value], channel, now)
    ensures r.Some? ==> forall d: nat :: d < n && Claimable(rows[d], channel, now) && d != r.value ==>
              || rows[r.value].availableAt < rows[d].availableAt
              || (rows[r.value].availableAt == rows[d].availableAt && rows[r.value].createdAt < rows[d].createdAt)
              || (rows[r.value].availableAt == rows[d].availableAt && rows[r.value].createdAt == rows[d].createdAt
                  && r.value < d)
  {
    if n == 0 then None
    else
      var best := NextClaimable(rows, channel, now, n - 1);
      if Claimable(rows[n - 1], channel, now) && (best.None? || Before(rows[n - 1], rows[best.value]))
      then Some(n - 1) else best
  }

  predicate OlderClaim(rows: seq<Delivery>, i: nat, j: nat)
    requires i < |rows| && j < |rows| && rows[i].claimedAt.Some? && rows[j].claimedAt.Some?
  {
    rows[i].claimedAt.value < rows[j].claimedAt.value || (rows[i].claimedAt == rows[j].claimedAt && i < j)
  }

  ghost predicate StaleList(rows: seq<Delivery>, channel: string, cutoff: Time, ids: seq<nat>, n: nat)
    requires n <= |rows|
  {
    && (forall i :: 0 <= i < |ids| ==> ids[i] < n && Stale(rows[ids[i]], channel, cutoff))
    && (forall i, j :: 0 <= i < j < |ids| ==> OlderClaim(rows, ids[i], ids[j]))
    && (forall d: nat :: d < n && Stale(rows[d], channel, cutoff) ==> d in ids)
  }

  /** Puts the newest identifier `d` behind every claim that is at least as old. */
  function InsertByAge(rows: seq<Delivery>, ids: seq<nat>, d: nat): (r: seq<nat>)
    requires d < |rows| && rows[d].claimedAt.Some?
    requires forall i :: 0 <= i < |ids| ==> ids[i] < d && rows[ids[i]].claimedAt.Some?
    requires forall i, j :: 0 <= i < j < |ids| ==> OlderClaim(rows, ids[i], ids[j])
    ensures forall x: nat :: x in r <==> x == d || x in ids
    ensures forall i :: 0 <= i < |r| ==> r[i] <= d && rows[r[i]].claimedAt.Some?
    ensures forall i, j :: 0 <= i < j < |r| ==> OlderClaim(rows, r[i], r[j])
  {
    if ids == [] || rows[d].claimedAt.value < rows[ids[0]].claimedAt.value then
      assert forall j :: 0 < j < |ids| ==> OlderClaim(rows, ids[0], ids[j]);
      [d] + ids
    else
      var rest := InsertByAge(rows, ids[1..], d);
      assert forall j :: 0 <= j < |rest| ==> rest[j] in rest;
      [ids[0]] + rest
  }

  /** The stale claims among the first `n` rows, oldest first. */
  function StaleIds(rows: seq<Delivery>, channel: string, cutoff: Time, n: nat): (ids: seq<nat>)
    requires n <= |rows|
    ensures StaleList(rows, channel, cutoff, ids, n)
  {
    if n == 0 then []
    else
      var before := StaleIds(rows, channel, cutoff, n - 1);
      if Stale(rows[n - 1], channel, cutoff) then
        var r := InsertByAge(rows, before, n - 1);
        assert forall i :: 0 <= i < |r| ==> r[i] in r;
        r
      else before
  }

  predicate MayRetry(rows: seq<Delivery>, d: nat, allowUncertain: bool) {
    d < |rows| && (rows[d].status.Failed? || (allowUncertain && rows[d].status.Uncertain?))
  }

  /** Other sessions leave worker and session `k` and their token alone. */
  ghost predicate Undisturbed(w: World, w': World, k: nat, token: Token) {
    && (k in w'.workers <==> k in w.workers) && (k in w'.workers ==> w'.workers[k] == w.workers[k])
    && (k in w'.looks <==> k in w.looks) && (k in w'.looks ==> w'.looks[k] == w.looks[k])
    && (token in w'.used <==> token in w.used)
  }

  class OutboxStore {
    const maxAttempts: nat
    var deliveries: seq<Delivery>
    var attempts: seq<Attempt>
    var receipts: map<(nat, nat), Receipt>
    var responses: map<string, Response>
    ghost var log: seq<Action>

    constructor (maxAttempts: nat)
      requires 0 < maxAttempts
      ensures Valid() && this.maxAttempts == maxAttempts && log == []
    {
      this.maxAttempts := maxAttempts;
      deliveries, attempts, receipts, responses := [], [], map[], map[];
      log := [];
    }

    function Tables(): Db
      reads this
    {
      Db(deliveries, attempts, receipts, responses)
    }

    ghost function State(): World
      reads this
    {
      Run(INITIAL, log, maxAttempts)
    }

    ghost predicate Valid()
      reads this
    {
      0 < maxAttempts && FencedRun(INITIAL, log, maxAttempts) && State().db == Tables()
    }

    lemma ValidInv()
      requires Valid()
      ensures Sound(State(), maxAttempts)
    {
      InitialInv(maxAttempts);
      RunKeeps(INITIAL, log, maxAttempts);
    }

    /** Appends an action whose effect the tables already show. */
    ghost method Record(act: Action)
      requires 0 < maxAttempts && FencedRun(INITIAL, log, maxAttempts)
      requires FencedStep(State(), act) && Step(State(), act, maxAttempts).db == Tables()
      modifies this`log
      ensures Valid() && log == old(log) + [act] && State() == Step(old(State()), act, maxAttempts)
    {
      RunSnoc(INITIAL, log, act, maxAttempts);
      log := log + [act];
    }

    /** Steps of worker `k` that do not write the tables. */
    ghost method FailedBeforeSending(k: nat, error: SendError)
      requires Valid()
      modifies this`log
      ensures Valid() && log == old(log) + [DoPreSendFailure(k, error)]
        && State() == PreSendFailureStep(old(State()), k, error)
    {
      Record(DoPreSendFailure(k, error));
    }

    ghost method Sends(k: nat, content: string, account: AccountCheck, reply: Reply)
      requires Valid()
      modifies this`log
      ensures Valid() && log == old(log) + [DoSend(k, content, account, reply)]
        && State() == SendStep(old(State()), k, content, account, reply)
    {
      Record(DoSend(k, content, account, reply));
    }

    ghost method MarkLost(k: nat, payload: string, now: Time)
      requires Valid()
      modifies this`log
      ensures Valid() && log == old(log) + [DoMark(k, payload, now, LostAndRaised)]
        && State() == MarkStep(old(State()), k, payload, now, LostAndRaised)
    {
      Record(DoMark(k, payload, now, LostAndRaised));
    }

    ghost method Resolved(k: nat)
      requires Valid()
      modifies this`log
      ensures Valid() && log == old(log) + [DoResolve(k)] && State() == ResolveStep(old(State()), k)
    {
      Record(DoResolve(k));
    }

    /** Other sessions run; they neither act for worker `k` nor draw its token. */
    method Others(ghost k: nat, ghost token: Token)
      requires Valid()
      modifies this
      ensures Valid() && Absent(old(log), log, k) && Undisturbed(old(State()), State(), k, token)
    {
    }

    /** Other sessions run between the checks of start_attempt and its insert; the claim stands. */
    method OthersWhileHeld(ghost k: nat, d: nat, token: Token)
      requires Valid() && Held(Tables(), d, token)
      modifies this
      ensures Valid() && Absent(old(log), log, k) && Undisturbed(old(State()), State(), k, token)
        && Held(Tables(), d, token)
    {
    }

    /** Other sessions run between the look of recovery and its commit; what it saw holds. */
    method OthersWhileLookHolds(ghost k: nat, ghost token: Token, look: ClaimLook)
      requires Valid() && LookHolds(Tables(), look)
      modifies this
      ensures Valid() && Absent(old(log), log, k) && Undisturbed(old(State()), State(), k, token)
        && LookHolds(Tables(), look)
    {
    }

    /** Other sessions run between the look of a manual retry and its commit; what it saw holds. */
    method OthersWhileStopHolds(ghost k: nat, ghost token: Token, look: StopLook)
      requires Valid() && StopHolds(Tables(), look)
      modifies this
      ensures Valid() && Absent(old(log), log, k) && Undisturbed(old(State()), State(), k, token)
        && StopHolds(Tables(), look)
    {
    }

    /** The row update of claim_next: compare-and-swap on a row chosen earlier. */
    method TryClaim(ghost k: nat, d: nat, channel: string, token: Token, now: Time) returns (won: bool)
      requires Valid() && d < |deliveries| && k !in State().workers && token !in State().used
      modifies this
      ensures Valid() && log == old(log) + [DoClaim(k, d, channel, token, now)]
      ensures won <==> old(Claimable(deliveries[d], channel, now))
      ensures won ==> Claim(old(Tables()), d, channel, token, now) == Committed(Tables())
      ensures won ==> State() == ClaimStep(old(State()), k, d, channel, token, now)
      ensures won ==>
        && d < |deliveries| && Held(Tables(), d, token) && deliveries[d].claimedAt == Some(now)
        && deliveries[d].claimCount == old(deliveries[d].claimCount) + 1
      ensures !won ==> Tables() == old(Tables()) && State() == old(State())
    {
      ValidInv();
      ClaimKeeps(Tables(), d, channel, token, now);
      won := Claimable(deliveries[d], channel, now);
      if won {
        var r := deliveries[d];
        var p := responses[r.responseId];
        deliveries := deliveries[d := r.(status := DeliveryStatus.Delivering, claimCount := r.claimCount + 1,
          claimToken := Some(token), claimedAt := Some(now), completedAt := None, lastError := None)];
        responses := responses[r.responseId := p.(status := ResponseStatus.Delivering, lastError := None)];
      }
      Record(DoClaim(k, d, channel, token, now));
    }

    /**
     Claims the first delivery in queue order. It comes back with nothing only when nothing was due or when all of its
     eight tries were lost to others.
     */
    method ClaimNext(ghost k: nat, channel: string, token: Token, now: Time, ghost cutoff: Time)
      returns (claimed: Option<nat>)
      requires Valid() && k !in State().workers && token !in State().used
      modifies this
      ensures Valid() && Timely(old(log), log, k, channel, cutoff, now)
      ensures claimed.None? ==>
                && k !in State().workers
                && (ClaimsBy(old(log), log, k) == 8
                    || forall d: nat :: d < |deliveries| ==> !Claimable(deliveries[d], channel, now))
      ensures claimed.Some? ==>
                && claimed.value < |deliveries|
                && Held(Tables(), claimed.value, token) && deliveries[claimed.value].claimedAt == Some(now)
                && FirstInLine(old(log), log, claimed.value, channel, now, maxAttempts)
                && k in State().workers
                && State().workers[k] == Looping(claimed.value, token, deliveries[claimed.value].nextPart)
    {
      var tries := 0;
      while tries < 8
        invariant 0 <= tries <= 8 && ClaimsBy(old(log), log, k) == tries
        invariant Valid() && Timely(old(log), log, k, channel, cutoff, now)
        invariant k !in State().workers && token !in State().used
      {
        var candidate := NextClaimable(deliveries, channel, now, |deliveries|);
        if candidate.None? { return None; }
        ghost var scan, rows := log, deliveries;
        Others(k, token);
        RowsStay(scan, log, maxAttempts);
        ghost var seen := log;
        var won := TryClaim(k, candidate.value, channel, token, now);
        OneTry(old(log), scan, seen, DoClaim(k, candidate.value, channel, token, now), k, channel, cutoff, now);
        if won {
          assert log[..|scan|] == scan;
          assert At(log, |scan|, maxAttempts).db.deliveries == rows;
          return candidate;
        }
        tries := tries + 1;
      }
      return None;
    }

    /** The write of one recovery: requeue, or quarantine when an attempt was seen in flight. */
    method CommitRecovery(ghost k: nat, look: ClaimLook, channel: string, cutoff: Time, now: Time) returns (done: bool)
      requires Valid() && k in State().looks && State().looks[k] == AtClaim(look) && LookHolds(Tables(), look)
      modifies this
      ensures Valid() && log == old(log) + [DoRecover(k, channel, cutoff, now)]
      ensures State().workers == old(State()).workers && State().used == old(State()).used
      ensures done <==> old(Recoverable(Tables(), look, channel, cutoff))
      ensures done ==> Recover(old(Tables()), look.delivery, channel, cutoff, now) == Committed(Tables())
      ensures !done ==> Tables() == old(Tables())
    {
      ValidInv();
      RecoverableCommits(Tables(), look, channel, cutoff, now);
      var d := look.delivery;
      done := Recoverable(Tables(), look, channel, cutoff);
      if done {
        CurrentRecovery(Tables(), look, channel, cutoff, now);
        var r := deliveries[d];
        var p := responses[r.responseId];
        r := r.(availableAt := now, claimToken := None, claimedAt := None);
        if look.active.Some? {
          attempts := attempts[look.active.value := attempts[look.active.value].(
            status := AttemptStatus.Uncertain, error := Some(CLAIM_EXPIRED), completedAt := Some(now))];
          deliveries := deliveries[d :=
            r.(status := DeliveryStatus.Uncertain, completedAt := Some(now), lastError := Some(CLAIM_EXPIRED))];
          responses := responses[r.responseId :=
            p.(status := ResponseStatus.Uncertain, lastError := Some(CLAIM_EXPIRED))];
        } else {
          deliveries := deliveries[d := r.(status := DeliveryStatus.Queued, completedAt := None, lastError := None)];
          responses := responses[r.responseId := p.(
            status := WaitingStatus(look.part), lastError := None)];
        }
      }
      Record(DoRecover(k, channel, cutoff, now));
    }

    /** One iteration of recover_stale_claims: the look, whatever runs meanwhile, and the write. */
    method RecoverOne(ghost k: nat, ghost token: Token, d: nat, channel: string, cutoff: Time,
                      now: Time) returns (done: bool)
      requires Valid() && d < |deliveries| && k !in State().workers && token !in State().used
      modifies this
      ensures Valid() && k !in State().workers && token !in State().used
      ensures Timely(old(log), log, k, channel, cutoff, now)
      ensures Tried(old(log), log, k, d, channel, cutoff, now, maxAttempts)
      ensures done ==> old(deliveries[d].status.Delivering? && deliveries[d].claimToken.Some?)
      ensures done ==>
        d < |deliveries| && (deliveries[d].status.Queued? || deliveries[d].status.Uncertain?)
        && deliveries[d].claimToken.None?
    {
      ValidInv();
      var seen := LookAtClaim(Tables(), d);
      assert log[..|log|] == log;
      if seen.None? {
        assert TriedAt(log, |log|, k, d, channel, cutoff, now, maxAttempts);
        return false;
      }
      Record(DoLookRecover(k, d));
      ghost var looked := log;
      OthersWhileLookHolds(k, token, seen.value);
      ghost var current := log;
      done := CommitRecovery(k, seen.value, channel, cutoff, now);
      LookedAndTried(old(log), looked, current, k, d, channel, cutoff, now, maxAttempts);
    }

    /** Recovers the claims that were stale when the scan ran and still are when their turn comes; none is left out. */
    method RecoverStaleClaims(ghost k: nat, ghost token: Token, channel: string, cutoff: Time, now: Time)
      returns (recovered: seq<nat>)
      requires Valid() && k !in State().workers && token !in State().used
      modifies this
      ensures Valid() && k !in State().workers && token !in State().used
      ensures Timely(old(log), log, k, channel, cutoff, now)
      ensures forall i :: 0 <= i < |recovered| ==>
                recovered[i] < |old(deliveries)| && old(Stale(deliveries[recovered[i]], channel, cutoff))
      ensures forall d: nat :: d < |old(deliveries)| && old(Stale(deliveries[d], channel, cutoff)) ==>
                Tried(old(log), log, k, d, channel, cutoff, now, maxAttempts)
    {
      var ids := StaleIds(deliveries, channel, cutoff, |deliveries|);
      recovered := [];
      for n := 0 to |ids|
        invariant Valid() && k !in State().workers && token !in State().used
        invariant Timely(old(log), log, k, channel, cutoff, now)
        invariant forall i :: 0 <= i < |recovered| ==> recovered[i] in ids
        invariant forall p :: 0 <= p < n ==> Tried(old(log), log, k, ids[p], channel, cutoff, now, maxAttempts)
      {
        ghost var before := log;
        Others(k, token);
        RowsStay(old(log), log, maxAttempts);
        ghost var current := log;
        var done := RecoverOne(k, token, ids[n], channel, cutoff, now);
        AbsentIsQuiet(before, current, k);
        QuietIsTimely(old(log), before, current, k, channel, cutoff, now);
        TimelyJoins(old(log), current, log, k, channel, cutoff, now);
        forall p | 0 <= p < n + 1 ensures Tried(old(log), log, k, ids[p], channel, cutoff, now, maxAttempts) {
          if p < n { TriedStays(old(log), old(log), before, log, k, ids[p], channel, cutoff, now, maxAttempts); }
          else { TriedStays(old(log), current, log, log, k, ids[p], channel, cutoff, now, maxAttempts); }
        }
        if done { recovered := recovered + [ids[n]]; }
      }
    }

    /** The checks of start_attempt: under a claim that stands they draw the next number of the part. */
    method CheckStart(ghost k: nat, d: nat, token: Token, part: nat) returns (drawn: Option<nat>)
      requires Valid() && k in State().workers && State().workers[k] == Looping(d, token, part)
      modifies this
      ensures Valid() && log == old(log) + [DoStart(k)] && Tables() == old(Tables())
      ensures drawn.Some? <==> Held(Tables(), d, token)
      ensures drawn.None? ==> k !in State().workers
      ensures drawn.Some? ==> k in State().workers && State().workers[k] == Starting(d, token, part, drawn.value)
    {
      ValidInv();
      assert PhaseOk(State(), State().workers[k]);
      drawn := None;
      if Held(Tables(), d, token) {
        ActiveFindsInFlight(Tables(), d);
        drawn := Some(MaxNumberBelow(Tables(), d, part, |attempts|) + 1);
      }
      Record(DoStart(k));
    }

    /**
     The checks, whatever runs meanwhile, and the insert: the new attempt is the only one in flight for its delivery.
     */
    method StartAttempt(ghost k: nat, d: nat, token: Token, part: nat) returns (started: Option<nat>, number: nat)
      requires Valid() && k in State().workers && State().workers[k] == Looping(d, token, part)
      modifies this
      ensures Valid() && Quiet(old(log), log, k)
      ensures started.Some? <==> old(Held(Tables(), d, token))
      ensures started.None? ==> k !in State().workers && Tables() == old(Tables())
      ensures started.Some? ==>
                && Held(Tables(), d, token) && Newest(Tables(), d, part, started.value, number)
                && k in State().workers
                && State().workers[k] == Busy(d, token, part, started.value, number, Sending)
    {
      var drawn := CheckStart(k, d, token, part);
      if drawn.None? { return None, 0; }
      ghost var checked := log;
      OthersWhileHeld(k, d, token);
      AbsentIsQuiet(checked, log, k);
      number := drawn.value;
      var a := InsertNumbered(k, d, token, part, number);
      started := Some(a);
    }

    /** The insert under a claim that stands: the number drawn before is still the next one. */
    method InsertNumbered(ghost k: nat, d: nat, ghost token: Token, part: nat, number: nat) returns (a: nat)
      requires Valid() && k in State().workers && State().workers[k] == Starting(d, token, part, number)
        && Held(Tables(), d, token)
      modifies this
      ensures Valid() && log == old(log) + [DoInsert(k)]
      ensures Held(Tables(), d, token) && Newest(Tables(), d, part, a, number)
      ensures Tables() == InsertAttempt(old(Tables()), d, part, number)
      ensures k in State().workers && State().workers[k] == Busy(d, token, part, a, number, Sending)
    {
      ValidInv();
      assert PhaseOk(State(), State().workers[k]);
      HeldNumberIsFree(State(), k);
      a := |attempts|;
      attempts := attempts + [Attempt(d, part, number, AttemptStatus.Delivering, None, None)];
      SameCount(old(attempts), attempts, d, part, a);
      Record(DoInsert(k));
    }

    method MarkPartDelivered(ghost k: nat, d: nat, token: Token, a: nat, part: nat, payload: string, now: Time,
                             ghost report: CommitReport) returns (marked: bool)
      requires Valid() && k in State().workers && !report.LostAndRaised?
      requires exists number: nat :: State().workers[k] == Busy(d, token, part, a, number, Accepted)
      modifies this
      ensures Valid() && log == old(log) + [DoMark(k, payload, now, report)]
      ensures State() == MarkStep(old(State()), k, payload, now, report)
      ensures marked <==> old(Held(Tables(), d, token))
      ensures marked ==>
        DeliveryOutbox.MarkPartDelivered(old(Tables()), d, token, a, part, payload, now) == Committed(Tables())
      ensures !marked ==> Tables() == old(Tables())
    {
      ValidInv();
      assert PhaseOk(State(), State().workers[k]);
      MarkKeeps(Tables(), d, token, a, part, payload, now);
      marked := Held(Tables(), d, token);
      if marked {
        MarkAccepts(State(), k);
        var r := deliveries[d];
        var p := responses[r.responseId];
        attempts := attempts[a := attempts[a].(status := AttemptStatus.Delivered, completedAt := Some(now))];
        receipts := receipts[(d, part) := Receipt(r.responseId, a, payload, now)];
        if part + 1 == p.partCount {
          deliveries := deliveries[d := r.(nextPart := part + 1, status := DeliveryStatus.Delivered, claimToken := None,
            claimedAt := None, completedAt := Some(now), lastError := None)];
          responses := responses[r.responseId := p.(status := ResponseStatus.Delivered, lastError := None)];
        } else {
          deliveries := deliveries[d := r.(nextPart := part + 1)];
          assert responses == responses[r.responseId := p];
        }
      }
      Record(DoMark(k, payload, now, report));
    }

    /** Closes the worker's attempt as mark_attempt_retryable, mark_attempt_failed or mark_attempt_uncertain does. */
    method FinishAttempt(ghost k: nat, d: nat, token: Token, a: nat, how: Closing, error: string, now: Time,
                         ghost retryAt: Time)
      returns (closed: bool)
      requires Valid() && k in State().workers
      requires exists part: nat, number: nat, e :: State().workers[k] == Busy(d, token, part, a, number, Failing(e))
                 && how == ClosingFor(e, number, maxAttempts, retryAt)
      modifies this
      ensures Valid() && log == old(log) + [DoRecordFailure(k, error, retryAt, now)]
      ensures State() == RecordFailureStep(old(State()), k, error, retryAt, now, maxAttempts)
      ensures k !in State().workers
      ensures closed <==> old(Held(Tables(), d, token))
      ensures closed ==>
        DeliveryOutbox.FinishAttempt(old(Tables()), d, token, a, how, error, now) == Committed(Tables())
      ensures !closed ==> Tables() == old(Tables())
    {
      ValidInv();
      assert PhaseOk(State(), State().workers[k]);
      FinishKeeps(Tables(), d, token, a, how, error, now);
      closed := Held(Tables(), d, token);
      if closed {
        assert InFlightOk(Tables(), a);
        var r := deliveries[d];
        var p := responses[r.responseId];
        attempts := attempts[a := attempts[a].(
          status := if how.Quarantine? then AttemptStatus.Uncertain else AttemptStatus.Failed,
          error := Some(error), completedAt := Some(now))];
        r := r.(claimToken := None, claimedAt := None, lastError := Some(error));
        match how {
          case Requeue(at) =>
            deliveries := deliveries[d := r.(status := DeliveryStatus.Queued, completedAt := None, availableAt := at)];
            assert responses == responses[r.responseId := p];
          case GiveUp =>
            deliveries := deliveries[d := r.(status := DeliveryStatus.Failed, completedAt := Some(now))];
            responses := responses[r.responseId := p.(status := ResponseStatus.Failed, lastError := Some(error))];
          case Quarantine =>
            deliveries := deliveries[d := r.(status := DeliveryStatus.Uncertain, completedAt := Some(now))];
            responses := responses[r.responseId := p.(status := ResponseStatus.Uncertain, lastError := Some(error))];
        }
      }
      Record(DoRecordFailure(k, error, retryAt, now));
    }

    /** The write of a manual retry. */
    method CommitRetry(ghost k: nat, look: StopLook, at: Time) returns (requeued: bool)
      requires Valid() && k in State().looks && State().looks[k] == AtStop(look) && StopHolds(Tables(), look)
      requires look.status.Failed? || look.status.Uncertain?
      modifies this
      ensures Valid() && log == old(log) + [DoRetry(k, at)]
      ensures requeued <==> look.delivery < |old(deliveries)| && old(deliveries[look.delivery].status == look.status)
      ensures requeued ==>
        DeliveryOutbox.Retry(old(Tables()), look.delivery, look.status.Uncertain?, at) == Committed(Tables())
      ensures !requeued ==> Tables() == old(Tables())
    {
      ValidInv();
      var d := look.delivery;
      requeued := d < |deliveries| && deliveries[d].status == look.status;
      if requeued {
        assert RowOk(Tables(), d);
        CurrentRetry(Tables(), look, at);
        var r := deliveries[d];
        var p := responses[r.responseId];
        deliveries := deliveries[d := r.(status := DeliveryStatus.Queued, availableAt := at, claimToken := None,
          claimedAt := None, completedAt := None, lastError := None)];
        responses := responses[r.responseId := p.(
          status := WaitingStatus(look.part), lastError := None)];
      }
      Record(DoRetry(k, at));
    }

    /** An operator puts a failed or, when allowed, an uncertain delivery back in the queue at its next part. */
    method Retry(ghost k: nat, ghost token: Token, d: nat, allowUncertain: bool, at: Time) returns (requeued: bool)
      requires Valid()
      modifies this
      ensures Valid() && old(log) <= log
      ensures requeued ==>
                && old(MayRetry(deliveries, d, allowUncertain))
                && d < |deliveries| && deliveries[d].status.Queued? && deliveries[d].availableAt == at
                && old(deliveries[d].nextPart) <= deliveries[d].nextPart
      ensures !requeued && !old(MayRetry(deliveries, d, allowUncertain)) ==> Tables() == old(Tables())
    {
      ValidInv();
      var seen := LookAtStop(Tables(), d, allowUncertain);
      if seen.None? { return false; }
      Record(DoLookRetry(k, d, allowUncertain));
      OthersWhileStopHolds(k, token, seen.value);
      RowsStay(old(log), log, maxAttempts);
      requeued := CommitRetry(k, seen.value, at);
    }
  }

  /**
   An attempt in flight at the counter, the last of the table, numbered after the earlier ones of its part, alone in
   flight.
   */
  ghost predicate Newest(db: Db, d: nat, part: nat, a: nat, number: nat) {
    && |db.attempts| == a + 1 && db.attempts[a] == Attempt(d, part, number, AttemptStatus.Delivering, None, None)
    && d < |db.deliveries| && db.deliveries[d].nextPart == part
    && number == CountPart(db.attempts, d, part, a) + 1
    && (forall b: nat :: InFlight(db, b) && db.attempts[b].delivery == d ==> b == a)
  }

  /** At some point of the log this delivery was the first in queue order. */
  ghost predicate FirstInLine(before: seq<Action>, after: seq<Action>, d: nat, channel: string, now: Time, m: nat) {
    exists n: nat :: |before| <= n <= |after|
      && var rows := At(after, n, m).db.deliveries; NextClaimable(rows, channel, now, |rows|) == Some(d)
  }

  /** The log of one try: others while the candidate is chosen, then the claim. */
  lemma OneTry(before: seq<Action>, scan: seq<Action>, seen: seq<Action>, act: Action, k: nat, channel: string,
               cutoff: Time, now: Time)
    requires Timely(before, scan, k, channel, cutoff, now) && Absent(scan, seen, k)
    requires act.DoClaim? && act.worker == k && act.channel == channel && act.at == now
    ensures Timely(before, seen + [act], k, channel, cutoff, now)
    ensures ClaimsBy(before, seen + [act], k) == ClaimsBy(before, scan, k) + 1
  {
    AbsentIsQuiet(scan, seen, k);
    QuietIsTimely(before, scan, seen, k, channel, cutoff, now);
    AbsentClaimsNothing(before, scan, seen, k);
    OneMoreClaim(before, seen, act, k);
  }

  /** The log of one recovery: the look, others, the write. */
  lemma LookedAndTried(before: seq<Action>, looked: seq<Action>, current: seq<Action>, k: nat, d: nat, channel: string,
                       cutoff: Time, now: Time, m: nat)
    requires looked == before + [DoLookRecover(k, d)] && Absent(looked, current, k)
    ensures var after := current + [DoRecover(k, channel, cutoff, now)];
      Timely(before, after, k, channel, cutoff, now) && Tried(before, after, k, d, channel, cutoff, now, m)
  {
    var after, i, j := current + [DoRecover(k, channel, cutoff, now)], |before|, |current|;
    AbsentIsQuiet(looked, current, k);
    QuietIsTimely(before, looked, current, k, channel, cutoff, now);
    assert after[..i + 1] == looked && after[..j] == current;
    assert TriedAt(after, i, k, d, channel, cutoff, now, m);
  }

  /** What the guards of the recovery update test. */
  predicate Recoverable(db: Db, look: ClaimLook, channel: string, cutoff: Time) {
    && Held(db, look.delivery, look.token) && Stale(db.deliveries[look.delivery], channel, cutoff)
    && (look.active.Some? ==> InFlight(db, look.active.value))
  }

  lemma RecoverableCommits(db: Db, look: ClaimLook, channel: string, cutoff: Time, now: Time)
    requires DbInv(db)
    ensures Recoverable(db, look, channel, cutoff) <==> RecoverCommit(db, look, channel, cutoff, now).Committed?
  {
    if look.delivery < |db.deliveries| { assert RowOk(db, look.delivery); }
  }

  /** A worker whose claim stands and whose part was accepted passes every check of mark_part_delivered. */
  lemma MarkAccepts(w: World, k: nat)
    requires DbInv(w.db) && WorkersOk(w) && k in w.workers && w.workers[k].Busy? && w.workers[k].stage.Accepted?
    requires Held(w.db, w.workers[k].delivery, w.workers[k].token)
    ensures var x := w.workers[k];
            && InFlight(w.db, x.attempt) && w.db.deliveries[x.delivery].nextPart == x.part
               && (x.delivery, x.part) !in w.db.receipts
  {
    var x := w.workers[k];
    assert PhaseOk(w, x);
    assert InFlightOk(w.db, x.attempt);
    assert (x.delivery, x.part) in w.db.receipts ==> ReceiptOk(w.db, x.delivery, x.part);
  }

  /** Rows are never deleted, and keep their response, its part count and their progress. */
  lemma RowsStay(before: seq<Action>, after: seq<Action>, m: nat)
    requires before <= after
    ensures Grows(Run(INITIAL, before, m).db, Run(INITIAL, after, m).db)
  {
    RunAppend(INITIAL, before, after[|before|..], m);
    assert before + after[|before|..] == after;
    RunGrows(Run(INITIAL, before, m), after[|before|..], m);
  }

  lemma {:induction false} RunGrows(w: World, acts: seq<Action>, m: nat)
    ensures Grows(w.db, Run(w, acts, m).db)
    decreases |acts|
  {
    if acts != [] {
      StepGrows(w, acts[0], m);
      RunGrows(Step(w, acts[0], m), acts[1..], m);
    }
  }
}
