/**
 The worker's repair loop: successful dispatches whose response or delivery is missing are retried from the stored
 result, with backoff and quarantine for the ones that keep failing. A record's identifier is its position plus one.
 */
module Reconciliation {
  import opened Basics

  const BATCH_SIZE := 25
  const BACKOFF_BASE := 30
  const BACKOFF_MAX := 300
  const QUARANTINE_FAILURES := 5
  const ERROR_CODE := "dispatch_reconciliation_candidate_invalid"

  /** `pending`: a stored success from the channel without its response or its delivery. */
  datatype Row = Row(
    pending: bool, failures: nat, nextAttempt: Option<Time>, quarantinedAt: Option<Time>, lastError: Option<string>)

  /**
   What one repair does: creates the missing rows, finds them, raises, or meets a database error, which may come after
   the missing rows were written. An integrity error that `save_generated` re-raises is a database error.
   */
  datatype Attempt = Created | Found | Raises | DatabaseError(landed: bool)

  /** A database error that wrote nothing. */
  predicate Lost(a: Attempt) {
    a.DatabaseError? && !a.landed
  }

  /** A pass ends with the first record it repairs, and a database error ends it too. */
  predicate Last(a: Attempt) {
    a.Created? || a.DatabaseError?
  }

  predicate Due(r: Row, now: Time) {
    r.quarantinedAt.None? && (r.nextAttempt.None? || r.nextAttempt.value <= now)
  }

  predicate Eligible(r: Row, now: Time) {
    r.pending && Due(r, now)
  }

  // ----- Backoff and quarantine of one record -----

  function Power(n: nat): (p: nat)
    ensures p >= 1
  {
    if n == 0 then 1 else 2 * Power(n - 1)
  }

  function Delay(failures: nat): nat
    requires failures >= 1
  {
    var d := BACKOFF_BASE * Power(failures - 1);
    if d < BACKOFF_MAX then d else BACKOFF_MAX
  }

  /** The guarded update of a failure; `read` is the count seen before, which a concurrent failure may have passed. */
  function Defer(r: Row, read: nat, now: Time): Row {
    if r.failures != read || !Due(r, now) then r
    else if read + 1 >= QUARANTINE_FAILURES then Row(r.pending, read + 1, None, Some(now), Some(ERROR_CODE))
    else Row(r.pending, read + 1, Some(now + Delay(read + 1)), None, Some(ERROR_CODE))
  }

  function Clear(r: Row): Row {
    if r.failures > 0 then Row(r.pending, 0, None, None, None) else r
  }

  /** The table's CHECK constraint: untouched, deferred or quarantined. */
  predicate TupleOk(r: Row) {
    || (r.failures == 0 && r.nextAttempt.None? && r.quarantinedAt.None? && r.lastError.None?)
    || (1 <= r.failures <= 4 && r.nextAttempt.Some? && r.quarantinedAt.None? && r.lastError.Some?)
    || (r.failures == 5 && r.nextAttempt.None? && r.quarantinedAt.Some? && r.lastError.Some?)
  }

  /** What workers do to one record, at their own clocks and in any order. */
  datatype Event = Fail(read: nat, at: Time) | Repair

  /** A record and the time of the first failure in its present unbroken series. */
  datatype History = History(row: Row, first: Time)

  function Apply(h: History, e: Event): History {
    match e
    case Repair => h.(row := Clear(h.row))
    case Fail(read, at) =>
      var r := Defer(h.row, read, at);
      History(r, if h.row.failures == 0 && r.failures == 1 then at else h.first)
  }

  function ApplyAll(h: History, events: seq<Event>): History
    decreases |events|
  {
    if events == [] then h else ApplyAll(Apply(h, events[0]), events[1..])
  }

  /** The series of `n` failures has used up the sum of its delays. */
  predicate Spaced(h: History) {
    && (1 <= h.row.failures <= 4 && h.row.nextAttempt.Some? ==>
          h.row.nextAttempt.value >= h.first + BACKOFF_BASE * (Power(h.row.failures) - 1))
    && (h.row.quarantinedAt.Some? ==> h.row.quarantinedAt.value >= h.first + 450)
  }

  lemma Powers()
    ensures Power(0) == 1 && Power(1) == 2 && Power(2) == 4 && Power(3) == 8 && Power(4) == 16
  {
    assert Power(1) == 2 * Power(0) && Power(2) == 2 * Power(1);
    assert Power(3) == 2 * Power(2) && Power(4) == 2 * Power(3);
  }

  lemma ApplyKeeps(h: History, e: Event)
    requires TupleOk(h.row) && Spaced(h)
    ensures TupleOk(Apply(h, e).row) && Spaced(Apply(h, e))
  {
    Powers();
  }

  /**
   In every history the fields form one of three tuples, and quarantine comes 450 s or more after the first failure.
   */
  lemma {:induction false} QuarantineIsEarned(h: History, events: seq<Event>)
    requires TupleOk(h.row) && Spaced(h)
    ensures var h' := ApplyAll(h, events);
      && TupleOk(h'.row)
      && (h'.row.quarantinedAt.Some? ==> h'.row.failures == 5 && h'.row.quarantinedAt.value >= h'.first + 450)
    ensures Spaced(ApplyAll(h, events))
    decreases |events|
  {
    if events != [] {
      ApplyKeeps(h, events[0]);
      QuarantineIsEarned(Apply(h, events[0]), events[1..]);
    }
  }

  /**
   A failure that counts puts the next attempt off by 30, 60, 120 and 240 s; the fifth puts the record in quarantine.
   */
  lemma FailureIsPutOff(r: Row, now: Time)
    requires TupleOk(r) && Due(r, now)
    ensures var r' := Defer(r, r.failures, now);
      && r'.failures == r.failures + 1 && r'.pending == r.pending && r'.lastError == Some(ERROR_CODE)
      && (r.failures == 4 ==> r'.nextAttempt.None? && r'.quarantinedAt == Some(now))
      && (r.failures < 4 ==> r'.quarantinedAt.None? && r'.nextAttempt == Some(now + [30, 60, 120, 240][r.failures]))
      && (forall t: Time :: t < now + 30 ==> !Due(r', t))
  {
    Powers();
  }

  /** A record that fails whenever it is due, and at once, is quarantined 450 s after its first failure. */
  lemma SteadyFailure(r: Row, t: Time)
    requires r.failures == 0 && TupleOk(r)
    ensures var events := [Fail(0, t), Fail(1, t + 30), Fail(2, t + 90), Fail(3, t + 210), Fail(4, t + 450)];
      ApplyAll(History(r, t), events).row == Row(r.pending, 5, None, Some(t + 450), Some(ERROR_CODE))
  {
    var e1, e2, e3, e4, e5 := Fail(0, t), Fail(1, t + 30), Fail(2, t + 90), Fail(3, t + 210), Fail(4, t + 450);
    var none: seq<Event> := [];
    Powers();
    var h1 := Apply(History(r, t), e1);
    var h2 := Apply(h1, e2);
    var h3 := Apply(h2, e3);
    var h4 := Apply(h3, e4);
    var h5 := Apply(h4, e5);
    ApplyCons(h4, e5, none);
    ApplyCons(h3, e4, [e5] + none);
    ApplyCons(h2, e3, [e4] + ([e5] + none));
    ApplyCons(h1, e2, [e3] + ([e4] + ([e5] + none)));
    ApplyCons(History(r, t), e1, [e2] + ([e3] + ([e4] + ([e5] + none))));
    assert [e1] + ([e2] + ([e3] + ([e4] + ([e5] + none)))) == [e1, e2, e3, e4, e5];
  }

  lemma ApplyCons(h: History, e: Event, rest: seq<Event>)
    ensures ApplyAll(h, [e] + rest) == ApplyAll(Apply(h, e), rest)
  {
    assert ([e] + rest)[1..] == rest;
  }

  /** Below the quarantine threshold the delays are 30, 60, 120 and 240 s: the 300 s cap binds exactly from it on. */
  lemma CapBindsIff(n: nat)
    requires n >= 1
    ensures Delay(n) < BACKOFF_BASE * Power(n - 1) <==> n >= QUARANTINE_FAILURES
  {
    Powers();
    if n >= 5 { PowerGrows(4, n - 1); }
  }

  lemma {:induction false} PowerGrows(m: nat, n: nat)
    requires m <= n
    ensures Power(m) <= Power(n)
    decreases n
  {
    if m < n { PowerGrows(m, n - 1); }
  }

  // ----- One pass of the repair loop -----

  datatype State = State(rows: seq<Row>, cursor: nat)

  /** The candidate query: eligible identifiers above the position `from`, in order, at most `limit` of them. */
  function Candidates(rows: seq<Row>, from: nat, now: Time, limit: nat): (ids: seq<nat>)
    ensures |ids| <= limit
    ensures forall k :: 0 <= k < |ids| ==> from < ids[k] <= |rows| && Eligible(rows[ids[k] - 1], now)
    ensures forall j, k :: 0 <= j < k < |ids| ==> ids[j] < ids[k]
    ensures ids == [] && limit > 0 ==> forall i: nat :: from <= i < |rows| ==> !Eligible(rows[i], now)
  {
    ScanLists(rows, from, now, limit);
    Scan(rows, from, now, limit)
  }

  function Scan(rows: seq<Row>, from: nat, now: Time, limit: nat): seq<nat>
    decreases |rows| - from
  {
    if limit == 0 || from >= |rows| then []
    else if Eligible(rows[from], now) then [from + 1] + Scan(rows, from + 1, now, limit - 1)
    else Scan(rows, from + 1, now, limit)
  }

  lemma {:induction false} ScanLists(rows: seq<Row>, from: nat, now: Time, limit: nat)
    ensures var ids := Scan(rows, from, now, limit);
      && |ids| <= limit
      && (forall k :: 0 <= k < |ids| ==> from < ids[k] <= |rows| && Eligible(rows[ids[k] - 1], now))
      && (forall j, k :: 0 <= j < k < |ids| ==> ids[j] < ids[k])
      && (ids == [] && limit > 0 ==> forall i: nat :: from <= i < |rows| ==> !Eligible(rows[i], now))
    decreases |rows| - from
  {
    if limit > 0 && from < |rows| {
      ScanLists(rows, from + 1, now, if Eligible(rows[from], now) then limit - 1 else limit);
    }
  }

  function Handle(r: Row, a: Attempt, now: Time): Row {
    match a
    case Raises => Defer(r, r.failures, now)
    case DatabaseError(landed) => if landed then r.(pending := false) else r
    case _ => Clear(r).(pending := false)
  }

  function Stop(ids: seq<nat>, attempt: nat -> Attempt): (n: nat)
    ensures n <= |ids| && (ids != [] ==> n > 0)
    ensures forall k :: 0 <= k < n - 1 ==> !Last(attempt(ids[k]))
    ensures n < |ids| ==> n > 0 && Last(attempt(ids[n - 1]))
  {
    if ids == [] then 0 else if Last(attempt(ids[0])) then 1 else 1 + Stop(ids[1..], attempt)
  }

  function HandledRow(rows: seq<Row>, handled: seq<nat>, now: Time, attempt: nat -> Attempt, i: nat): Row
    requires i < |rows|
  {
    if i + 1 in handled then Handle(rows[i], attempt(i + 1), now) else rows[i]
  }

  function HandleAll(rows: seq<Row>, handled: seq<nat>, now: Time, attempt: nat -> Attempt): (r: seq<Row>)
    ensures |r| == |rows| && forall i: nat :: i < |rows| ==> r[i] == HandledRow(rows, handled, now, attempt, i)
  {
    seq(|rows|, i requires 0 <= i < |rows| => HandledRow(rows, handled, now, attempt, i))
  }

  /** The batch of a pass: from the cursor on, or from the start once nothing is left behind the cursor. */
  function Batch(s: State, now: Time): seq<nat> {
    var ids := Candidates(s.rows, s.cursor, now, BATCH_SIZE);
    if ids == [] && s.cursor != 0 then Candidates(s.rows, 0, now, BATCH_SIZE) else ids
  }

  function Handled(s: State, now: Time, attempt: nat -> Attempt): seq<nat> {
    var ids := Batch(s, now);
    ids[..Stop(ids, attempt)]
  }

  function CursorAfter(s: State, now: Time, attempt: nat -> Attempt): nat {
    var handled := Handled(s, now, attempt);
    if handled == [] then 0 else handled[|handled| - 1]
  }

  function Pass(s: State, now: Time, attempt: nat -> Attempt): State {
    State(HandleAll(s.rows, Handled(s, now, attempt), now, attempt), CursorAfter(s, now, attempt))
  }

  predicate EligibleAt(rows: seq<Row>, id: nat, now: Time) {
    1 <= id <= |rows| && Eligible(rows[id - 1], now)
  }

  ghost function EligibleIds(rows: seq<Row>, now: Time): set<nat> {
    set id: nat | id <= |rows| && EligibleAt(rows, id, now)
  }

  /** The batch is drawn from the backlog in order, and is empty only when the backlog is. */
  lemma BatchCovers(s: State, now: Time, id: nat)
    ensures id in Batch(s, now) ==> EligibleAt(s.rows, id, now)
    ensures EligibleAt(s.rows, id, now) ==> Batch(s, now) != []
    ensures |Batch(s, now)| <= BATCH_SIZE
    ensures forall j, k :: 0 <= j < k < |Batch(s, now)| ==> Batch(s, now)[j] < Batch(s, now)[k]
  {
  }

  lemma HandledIsDone(r: Row, a: Attempt, now: Time)
    requires Eligible(r, now)
    ensures Eligible(Handle(r, a, now), now) <==> Lost(a)
  {
  }

  /** A repaired record leaves the backlog as if it had never failed; one that raises stays and is put off. */
  lemma RepairForgets(r: Row, a: Attempt, now: Time)
    requires TupleOk(r) && Eligible(r, now)
    ensures a.Created? || a.Found? ==> Handle(r, a, now) == Row(false, 0, None, None, None)
    ensures a.Raises? ==> Handle(r, a, now).pending && Handle(r, a, now).failures == r.failures + 1
    ensures a.DatabaseError? ==> Handle(r, a, now) == r.(pending := !a.landed)
  {
  }

  predicate Distinct(ids: seq<nat>) {
    forall j, k :: 0 <= j < k < |ids| ==> ids[j] != ids[k]
  }

  predicate Increasing(ids: seq<nat>) {
    forall j, k :: 0 <= j < k < |ids| ==> ids[j] < ids[k]
  }

  lemma HandledAt(s: State, now: Time, attempt: nat -> Attempt, id: nat)
    ensures id in Handled(s, now, attempt) ==> EligibleAt(s.rows, id, now)
    ensures EligibleAt(s.rows, id, now) ==> Handled(s, now, attempt) != []
    ensures EligibleAt(Pass(s, now, attempt).rows, id, now)
      <==> EligibleAt(s.rows, id, now) && (id in Handled(s, now, attempt) ==> Lost(attempt(id)))
  {
    BatchCovers(s, now, id);
    if id in Handled(s, now, attempt) {
      HandledIsDone(s.rows[id - 1], attempt(id), now);
    }
  }

  /**
   A pass takes the records it handles out of the backlog, except one that met a database error, and handles one
   whenever there is one.
   */
  lemma PassShrinks(s: State, now: Time, attempt: nat -> Attempt)
    ensures var h := Handled(s, now, attempt);
      && Distinct(h) && (forall id :: id in h ==> id in EligibleIds(s.rows, now))
      && (forall id :: id in EligibleIds(Pass(s, now, attempt).rows, now)
            <==> id in EligibleIds(s.rows, now) && (id in h ==> Lost(attempt(id))))
      && (EligibleIds(s.rows, now) != {} ==> h != [])
  {
    BatchCovers(s, now, 0);
    forall id: nat
      ensures id in Handled(s, now, attempt) ==> id in EligibleIds(s.rows, now)
      ensures id in EligibleIds(Pass(s, now, attempt).rows, now)
        <==> id in EligibleIds(s.rows, now) && (id in Handled(s, now, attempt) ==> Lost(attempt(id)))
      ensures id in EligibleIds(s.rows, now) ==> Handled(s, now, attempt) != []
    {
      HandledAt(s, now, attempt, id);
    }
  }

  // ----- No starvation -----

  function Passes(s: State, now: Time, attempts: seq<nat -> Attempt>): State
    decreases |attempts|
  {
    if |attempts| == 0 then s else Passes(Pass(s, now, attempts[0]), now, attempts[1..])
  }

  function HandledBy(s: State, now: Time, attempts: seq<nat -> Attempt>): seq<nat>
    decreases |attempts|
  {
    if |attempts| == 0 then []
    else Handled(s, now, attempts[0]) + HandledBy(Pass(s, now, attempts[0]), now, attempts[1..])
  }

  /** Whenever a pass handled this record, it met a database error that wrote nothing. */
  predicate AlwaysLost(s: State, now: Time, attempts: seq<nat -> Attempt>, id: nat)
    decreases |attempts|
  {
    |attempts| == 0
    || ((id in Handled(s, now, attempts[0]) ==> Lost(attempts[0](id)))
        && AlwaysLost(Pass(s, now, attempts[0]), now, attempts[1..], id))
  }

  /** A record stays in the backlog exactly as long as each of its attempts is lost to a database error. */
  lemma {:induction false} StaysIff(s: State, now: Time, attempts: seq<nat -> Attempt>, id: nat)
    ensures EligibleAt(Passes(s, now, attempts).rows, id, now)
      <==> EligibleAt(s.rows, id, now) && AlwaysLost(s, now, attempts, id)
    decreases |attempts|
  {
    if |attempts| != 0 {
      HandledAt(s, now, attempts[0], id);
      StaysIff(Pass(s, now, attempts[0]), now, attempts[1..], id);
    }
  }

  /** A record whose repair always meets a database error stays in the backlog for ever, as it was. */
  lemma {:induction false} LostForEver(s: State, now: Time, attempts: seq<nat -> Attempt>, id: nat)
    requires EligibleAt(s.rows, id, now) && forall i: nat :: i < |attempts| ==> Lost(attempts[i](id))
    ensures EligibleAt(Passes(s, now, attempts).rows, id, now)
    ensures Passes(s, now, attempts).rows[id - 1] == s.rows[id - 1]
    decreases |attempts|
  {
    if |attempts| != 0 {
      var s1 := Pass(s, now, attempts[0]);
      LostOnce(s.rows, Handled(s, now, attempts[0]), now, attempts[0], id, s1.rows);
      assert forall i: nat :: i < |attempts[1..]| ==> attempts[1..][i] == attempts[i + 1];
      LostForEver(s1, now, attempts[1..], id);
    }
  }

  /** Whichever records a pass handles, one that is lost to a database error stays as it was. */
  lemma LostOnce(rows: seq<Row>, handled: seq<nat>, now: Time, attempt: nat -> Attempt, id: nat, rows': seq<Row>)
    requires EligibleAt(rows, id, now) && Lost(attempt(id)) && rows' == HandleAll(rows, handled, now, attempt)
    ensures |rows'| == |rows| && rows'[id - 1] == rows[id - 1] && EligibleAt(rows', id, now)
  {
    assert rows'[id - 1] == HandledRow(rows, handled, now, attempt, id - 1);
  }

  /** The backlog above the cursor, up to `bound`. */
  ghost function Ahead(s: State, now: Time, bound: nat): set<nat> {
    set id: nat | s.cursor < id <= bound && EligibleAt(s.rows, id, now)
  }

  /**
   With something ahead of the cursor a pass goes on from it in order and leaves the cursor at the last it handled.
   */
  lemma PassGoesOn(s: State, now: Time, attempt: nat -> Attempt, id: nat)
    requires s.cursor < id && EligibleAt(s.rows, id, now)
    ensures Batch(s, now) == Candidates(s.rows, s.cursor, now, BATCH_SIZE) != []
    ensures var h := Handled(s, now, attempt);
      && h != [] && Increasing(h) && s.cursor < h[0] <= id && Pass(s, now, attempt).cursor == h[|h| - 1]
      && h[|h| - 1] in Batch(s, now)
  {
    CandidatesCover(s.rows, s.cursor, now, BATCH_SIZE, id);
  }

  /** The candidates leave no eligible record out below the last of them. */
  lemma {:induction false} CandidatesCover(rows: seq<Row>, from: nat, now: Time, limit: nat, id: nat)
    requires from < id && EligibleAt(rows, id, now) && limit > 0
    ensures var ids := Candidates(rows, from, now, limit);
      ids != [] && ids[0] <= id && (id <= ids[|ids| - 1] ==> id in ids)
  {
    ScanCovers(rows, from, now, limit, id);
  }

  lemma {:induction false} ScanCovers(rows: seq<Row>, from: nat, now: Time, limit: nat, id: nat)
    requires from < id && EligibleAt(rows, id, now) && limit > 0
    ensures var ids := Scan(rows, from, now, limit);
      ids != [] && ids[0] <= id && (id <= ids[|ids| - 1] ==> id in ids)
    decreases |rows| - from
  {
    if !Eligible(rows[from], now) {
      ScanCovers(rows, from + 1, now, limit, id);
    } else if id != from + 1 && limit > 1 {
      ScanCovers(rows, from + 1, now, limit - 1, id);
    }
  }

  /** What was ahead and was not handled is still ahead. */
  lemma StillAhead(s: State, now: Time, attempt: nat -> Attempt, bound: nat, id: nat)
    requires Ahead(s, now, bound) != {}
    ensures id in Ahead(Pass(s, now, attempt), now, bound)
      <==> id in Ahead(s, now, bound) && id !in Handled(s, now, attempt)
  {
    var some :| some in Ahead(s, now, bound);
    PassGoesOn(s, now, attempt, some);
    HandledAt(s, now, attempt, id);
    var h := Handled(s, now, attempt);
    assert id in h ==> id <= h[|h| - 1];
    if s.cursor < id <= h[|h| - 1] && EligibleAt(s.rows, id, now) { HandlesUpTo(s, now, attempt, id); }
  }

  lemma HandlesUpTo(s: State, now: Time, attempt: nat -> Attempt, id: nat)
    requires s.cursor < id && EligibleAt(s.rows, id, now) && Handled(s, now, attempt) != []
    requires id <= Handled(s, now, attempt)[|Handled(s, now, attempt)| - 1]
    ensures id in Handled(s, now, attempt)
  {
    PassGoesOn(s, now, attempt, id);
    CandidatesCover(s.rows, s.cursor, now, BATCH_SIZE, id);
    BatchCovers(s, now, id);
    PrefixHolds(Batch(s, now), Stop(Batch(s, now), attempt), id);
  }

  /** An increasing list up to a bound is a prefix of it. */
  lemma PrefixHolds(ids: seq<nat>, n: nat, id: nat)
    requires Increasing(ids) && 0 < n <= |ids| && id <= ids[n - 1] && (id <= ids[|ids| - 1] ==> id in ids)
    ensures id in ids[..n]
  {
    assert ids[n - 1] <= ids[|ids| - 1];
    var k :| 0 <= k < |ids| && ids[k] == id;
    assert ids[..n][k] == id;
  }

  /** A pass with something ahead leaves less of it. */
  lemma PassAdvances(s: State, now: Time, attempt: nat -> Attempt, bound: nat)
    requires Ahead(s, now, bound) != {}
    ensures var h := Handled(s, now, attempt);
      var s' := Pass(s, now, attempt);
      && h != [] && Increasing(h) && s.cursor < h[0] && s'.cursor == h[|h| - 1]
      && (forall id :: id in Ahead(s', now, bound) <==> id in Ahead(s, now, bound) && id !in h)
      && |Ahead(s', now, bound)| < |Ahead(s, now, bound)|
  {
    var h, s' := Handled(s, now, attempt), Pass(s, now, attempt);
    var first :| first in Ahead(s, now, bound);
    PassGoesOn(s, now, attempt, first);
    forall id: nat ensures id in Ahead(s', now, bound) <==> id in Ahead(s, now, bound) && id !in h {
      StillAhead(s, now, attempt, bound, id);
    }
    assert h[0] in h && h[0] in Ahead(s, now, bound) by { HandledAt(s, now, attempt, h[0]); }
    SubsetSize(Ahead(s', now, bound), Ahead(s, now, bound) - {h[0]});
  }

  /** Without a wrap of the cursor, as many passes as there are records ahead reach them all. */
  lemma {:induction false} ReachesAhead(s: State, now: Time, attempts: seq<nat -> Attempt>, bound: nat)
    requires |attempts| >= |Ahead(s, now, bound)|
    ensures forall id :: id in Ahead(s, now, bound) ==> id in HandledBy(s, now, attempts)
    decreases |attempts|
  {
    if Ahead(s, now, bound) != {} {
      PassAdvances(s, now, attempts[0], bound);
      ReachesAhead(Pass(s, now, attempts[0]), now, attempts[1..], bound);
    }
  }

  ghost function Behind(rows: seq<Row>, now: Time, start: nat): set<nat> {
    set id: nat | id <= start && EligibleAt(rows, id, now)
  }

  /** A tour that began at `start`: what is ahead of the cursor comes first, then the cursor wraps to what is behind. */
  lemma {:induction false} TourReachesAll(s: State, now: Time, attempts: seq<nat -> Attempt>, start: nat)
    requires start <= s.cursor
    requires |attempts| >= |Ahead(s, now, |s.rows|)| + |Behind(s.rows, now, start)|
    ensures forall id :: id in Ahead(s, now, |s.rows|) || id in Behind(s.rows, now, start) ==>
      id in HandledBy(s, now, attempts)
    decreases |attempts|
  {
    if Ahead(s, now, |s.rows|) != {} {
      var s' := Pass(s, now, attempts[0]);
      PassAdvances(s, now, attempts[0], |s.rows|);
      BehindStays(s, now, attempts[0], start);
      TourReachesAll(s', now, attempts[1..], start);
    } else if Behind(s.rows, now, start) != {} {
      var s0 := State(s.rows, 0);
      assert Ahead(s0, now, start) == Behind(s.rows, now, start);
      assert Candidates(s.rows, s.cursor, now, BATCH_SIZE) == [] by { NothingAhead(s, now); }
      assert Handled(s, now, attempts[0]) == Handled(s0, now, attempts[0]);
      ReachesAhead(s0, now, attempts, start);
    }
  }

  lemma NothingAhead(s: State, now: Time)
    requires Ahead(s, now, |s.rows|) == {}
    ensures Candidates(s.rows, s.cursor, now, BATCH_SIZE) == []
  {
    if Candidates(s.rows, s.cursor, now, BATCH_SIZE) != [] { CandidateIsAhead(s, now); }
  }

  lemma CandidateIsAhead(s: State, now: Time)
    requires Candidates(s.rows, s.cursor, now, BATCH_SIZE) != []
    ensures Candidates(s.rows, s.cursor, now, BATCH_SIZE)[0] in Ahead(s, now, |s.rows|)
  {
  }

  lemma BehindStays(s: State, now: Time, attempt: nat -> Attempt, start: nat)
    requires start <= s.cursor && Ahead(s, now, |s.rows|) != {}
    ensures var s' := Pass(s, now, attempt);
      Behind(s'.rows, now, start) == Behind(s.rows, now, start) && start <= s'.cursor && |s'.rows| == |s.rows|
  {
    PassAdvances(s, now, attempt, |s.rows|);
    HandledIsAhead(s, now, attempt);
    var s' := Pass(s, now, attempt);
    forall id: nat ensures id in Behind(s'.rows, now, start) <==> id in Behind(s.rows, now, start) {
      HandledAt(s, now, attempt, id);
    }
    CursorMovesOn(s, now, attempt);
  }

  lemma CursorMovesOn(s: State, now: Time, attempt: nat -> Attempt)
    requires Ahead(s, now, |s.rows|) != {}
    ensures s.cursor < Pass(s, now, attempt).cursor
  {
    PassAdvances(s, now, attempt, |s.rows|);
    HandledIsAhead(s, now, attempt);
    var h := Handled(s, now, attempt);
    assert h[|h| - 1] in h;
  }

  /**
   Whatever fails, database errors included: within as many passes as there are eligible records each is attempted,
   across batch limit and cursor, and what is left are the records whose every attempt was lost to a database error.
   */
  lemma NoStarvation(s: State, now: Time, attempts: seq<nat -> Attempt>)
    requires |attempts| >= |EligibleIds(s.rows, now)|
    ensures forall id :: id in EligibleIds(s.rows, now) ==> id in HandledBy(s, now, attempts)
    ensures forall id: nat :: EligibleAt(Passes(s, now, attempts).rows, id, now)
              <==> EligibleAt(s.rows, id, now) && AlwaysLost(s, now, attempts, id)
  {
    var ahead, behind := Ahead(s, now, |s.rows|), Behind(s.rows, now, s.cursor);
    assert ahead !! behind && EligibleIds(s.rows, now) == ahead + behind;
    TourReachesAll(s, now, attempts, s.cursor);
    forall id: nat ensures EligibleAt(Passes(s, now, attempts).rows, id, now)
      <==> EligibleAt(s.rows, id, now) && AlwaysLost(s, now, attempts, id)
    {
      StaysIff(s, now, attempts, id);
    }
  }

  // ----- Once per rotation -----

  /** No pass wraps the cursor: each finds something ahead of it. */
  ghost predicate NoWrap(s: State, now: Time, attempts: seq<nat -> Attempt>)
    decreases |attempts|
  {
    |attempts| == 0
    || (Ahead(s, now, |s.rows|) != {} && NoWrap(Pass(s, now, attempts[0]), now, attempts[1..]))
  }

  /**
   Between two wraps of the cursor no record is attempted twice, and when nothing is ahead any more each was attempted.
   */
  lemma {:induction false} OncePerRotation(s: State, now: Time, attempts: seq<nat -> Attempt>)
    requires NoWrap(s, now, attempts)
    ensures Increasing(HandledBy(s, now, attempts))
    ensures forall id :: id in HandledBy(s, now, attempts) ==> id in Ahead(s, now, |s.rows|)
    ensures |Passes(s, now, attempts).rows| == |s.rows|
    ensures Ahead(Passes(s, now, attempts), now, |s.rows|) == {} ==>
              forall id :: id in Ahead(s, now, |s.rows|) ==> id in HandledBy(s, now, attempts)
    decreases |attempts|
  {
    if |attempts| != 0 {
      var s', h := Pass(s, now, attempts[0]), Handled(s, now, attempts[0]);
      PassAdvances(s, now, attempts[0], |s.rows|);
      OncePerRotation(s', now, attempts[1..]);
      HandledIsAhead(s, now, attempts[0]);
      IncreasingAppend(h, HandledBy(s', now, attempts[1..]));
    }
  }

  lemma HandledIsAhead(s: State, now: Time, attempt: nat -> Attempt)
    requires Ahead(s, now, |s.rows|) != {}
    ensures forall id :: id in Handled(s, now, attempt) ==> id in Ahead(s, now, |s.rows|)
  {
    PassAdvances(s, now, attempt, |s.rows|);
    var h := Handled(s, now, attempt);
    forall id | id in h ensures id in Ahead(s, now, |s.rows|) {
      HandledAt(s, now, attempt, id);
      var k :| 0 <= k < |h| && h[k] == id;
      assert s.cursor < h[0] <= h[k];
    }
  }

  lemma IncreasingAppend(h: seq<nat>, rest: seq<nat>)
    requires h != [] && Increasing(h) && Increasing(rest) && forall id :: id in rest ==> h[|h| - 1] < id
    ensures Increasing(h + rest)
  {
    forall j, k | 0 <= j < k < |h + rest| ensures (h + rest)[j] < (h + rest)[k] {
      if j < |h| <= k { assert rest[k - |h|] in rest && h[j] <= h[|h| - 1]; }
    }
  }

  /** Without database errors every eligible record is handled exactly once and none is left. */
  lemma {:induction false} HandledExactlyOnce(s: State, now: Time, attempts: seq<nat -> Attempt>)
    requires |attempts| >= |EligibleIds(s.rows, now)|
    requires forall i: nat, id: nat :: i < |attempts| ==> !Lost(attempts[i](id))
    ensures EligibleIds(Passes(s, now, attempts).rows, now) == {}
    ensures Distinct(HandledBy(s, now, attempts))
    ensures forall id :: id in HandledBy(s, now, attempts) <==> id in EligibleIds(s.rows, now)
    decreases |attempts|
  {
    if |attempts| != 0 {
      PassShrinks(s, now, attempts[0]);
      FewerLeft(s, now, attempts[0]);
      var s' := Pass(s, now, attempts[0]);
      assert EligibleIds(s.rows, now) == {} ==> EligibleIds(s'.rows, now) == {};
      HandledExactlyOnce(s', now, attempts[1..]);
      DistinctAppend(Handled(s, now, attempts[0]), HandledBy(s', now, attempts[1..]));
    }
  }

  lemma FewerLeft(s: State, now: Time, attempt: nat -> Attempt)
    requires forall id: nat :: !Lost(attempt(id))
    ensures EligibleIds(s.rows, now) == {}
      || |EligibleIds(Pass(s, now, attempt).rows, now)| < |EligibleIds(s.rows, now)|
  {
    PassShrinks(s, now, attempt);
    var before, after := EligibleIds(s.rows, now), EligibleIds(Pass(s, now, attempt).rows, now);
    if before != {} {
      var id := Handled(s, now, attempt)[0];
      assert id in before && id !in after;
      SubsetSize(after, before - {id});
    }
  }

  lemma DistinctAppend(h: seq<nat>, rest: seq<nat>)
    requires Distinct(h) && Distinct(rest) && forall id :: id in h ==> id !in rest
    ensures Distinct(h + rest)
  {
    forall j, k | 0 <= j < k < |h + rest| ensures (h + rest)[j] != (h + rest)[k] {
      if j < |h| <= k {
        assert h[j] in h && rest[k - |h|] in rest;
      }
    }
  }

  lemma HandleOneMore(rows: seq<Row>, handled: seq<nat>, id: nat, now: Time, attempt: nat -> Attempt)
    requires 1 <= id <= |rows| && id !in handled
    ensures var before := HandleAll(rows, handled, now, attempt);
      && before[id - 1] == rows[id - 1]
      && HandleAll(rows, handled + [id], now, attempt) == before[id - 1 := Handle(rows[id - 1], attempt(id), now)]
  {
    var after := HandleAll(rows, handled, now, attempt)[id - 1 := Handle(rows[id - 1], attempt(id), now)];
    forall i | 0 <= i < |rows| ensures HandleAll(rows, handled + [id], now, attempt)[i] == after[i] {
      assert i + 1 in handled + [id] <==> i + 1 in handled || i + 1 == id;
    }
  }

  // ----- The worker -----

  lemma PassOf(s: State, ids: seq<nat>, rows: seq<Row>, cursor: nat, now: Time, attempt: nat -> Attempt)
    requires ids == Batch(s, now) && rows == HandleAll(s.rows, ids[..Stop(ids, attempt)], now, attempt)
    requires cursor == if ids == [] then 0 else ids[Stop(ids, attempt) - 1]
    ensures State(rows, cursor) == Pass(s, now, attempt)
  {
    assert ids[..Stop(ids, attempt)] == Handled(s, now, attempt);
  }

  /** How a call ends: nothing repaired, one record repaired, or a database error raised. */
  datatype End = Nothing | Repaired | Raised

  function EndOf(a: Attempt): End {
    match a case Created => Repaired case DatabaseError(_) => Raised case _ => Nothing
  }

  /** HermesDispatchWorker's reconciliation state over the dispatch table. */
  class DispatchReconciler {
    var rows: seq<Row>
    var cursor: nat

    constructor (rows: seq<Row>)
      requires forall i :: 0 <= i < |rows| ==> TupleOk(rows[i])
      ensures Valid() && this.rows == rows && cursor == 0
    {
      this.rows, cursor := rows, 0;
    }

    ghost predicate Valid()
      reads this
    {
      forall i :: 0 <= i < |rows| ==> TupleOk(rows[i])
    }

    /** One call: handles candidates until one is repaired; `attempt` is what each repair would do. */
    method ReconcileOnce(now: Time, attempt: nat -> Attempt) returns (end: End)
      requires Valid()
      modifies this
      ensures Valid()
      ensures State(rows, cursor) == Pass(old(State(rows, cursor)), now, attempt)
      ensures var h := Handled(old(State(rows, cursor)), now, attempt);
        end == if h == [] then Nothing else EndOf(attempt(h[|h| - 1]))
    {
      ghost var s := State(rows, cursor);
      var ids := NextBatch(now);
      end := Sweep(ids, now, attempt);
      PassOf(s, ids, rows, cursor, now, attempt);
    }

    /** The candidates after the cursor; when there are none, the cursor starts over. */
    method NextBatch(now: Time) returns (ids: seq<nat>)
      modifies this`cursor
      ensures ids == Batch(old(State(rows, cursor)), now)
      ensures Distinct(ids) && forall k :: 0 <= k < |ids| ==> 1 <= ids[k] <= |rows|
      ensures ids == [] ==> cursor == 0
    {
      ids := Candidates(rows, cursor, now, BATCH_SIZE);
      BatchCovers(State(rows, cursor), now, 0);
      if ids == [] && cursor != 0 {
        cursor := 0;
        ids := Candidates(rows, 0, now, BATCH_SIZE);
      }
    }

    /** Goes through the candidates in order and stops at the first one repaired or at a database error. */
    method Sweep(ids: seq<nat>, now: Time, attempt: nat -> Attempt) returns (end: End)
      requires Valid() && Distinct(ids) && forall k :: 0 <= k < |ids| ==> 1 <= ids[k] <= |rows|
      modifies this
      ensures Valid() && rows == HandleAll(old(rows), ids[..Stop(ids, attempt)], now, attempt)
      ensures cursor == if ids == [] then old(cursor) else ids[Stop(ids, attempt) - 1]
      ensures end == if ids == [] then Nothing else EndOf(attempt(ids[Stop(ids, attempt) - 1]))
    {
      ghost var n := Stop(ids, attempt);
      var k := 0;
      end := Nothing;
      while k < |ids| && end.Nothing?
        invariant Valid() && k <= n
        invariant rows == HandleAll(old(rows), ids[..k], now, attempt)
        invariant cursor == if k == 0 then old(cursor) else ids[k - 1]
        invariant end == if k == 0 then Nothing else EndOf(attempt(ids[k - 1]))
        invariant !end.Nothing? ==> k == n
      {
        cursor := ids[k];
        var a := attempt(ids[k]);
        HandleOneMore(old(rows), ids[..k], ids[k], now, attempt);
        HandleCandidate(ids[k] - 1, a, now);
        assert ids[..k + 1] == ids[..k] + [ids[k]];
        end := EndOf(a);
        k := k + 1;
      }
      assert k == n;
    }

    /** One candidate: repaired and its failures forgotten, put off, or left as the database error left it. */
    method HandleCandidate(i: nat, a: Attempt, now: Time)
      requires Valid() && i < |rows|
      modifies this`rows
      ensures Valid() && rows == old(rows)[i := Handle(old(rows)[i], a, now)]
    {
      match a {
        case Raises => DeferCandidate(i, now);
        case DatabaseError(landed) => if landed { rows := rows[i := rows[i].(pending := false)]; }
        case Created => rows := rows[i := Clear(rows[i]).(pending := false)];
        case Found => rows := rows[i := Clear(rows[i]).(pending := false)];
      }
    }

    /** Records one failure: the next attempt is put off, or the record is quarantined. */
    method DeferCandidate(i: nat, now: Time)
      requires Valid() && i < |rows|
      modifies this`rows
      ensures Valid() && rows == old(rows)[i := Defer(old(rows)[i], old(rows)[i].failures, now)]
    {
      var r := rows[i];
      if Due(r, now) {
        var failures := r.failures + 1;
        var quarantinedAt, nextAttempt := None, None;
        if failures >= QUARANTINE_FAILURES {
          quarantinedAt := Some(now);
        } else {
          var delay := Delay(failures);
          nextAttempt := Some(now + delay);
        }
        rows := rows[i := Row(r.pending, failures, nextAttempt, quarantinedAt, Some(ERROR_CODE))];
      }
    }
  }
}
