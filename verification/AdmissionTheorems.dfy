/** What the admission invariant means for messages, claims and callers. */
module AdmissionTheorems {
  import opened Basics
  import Queue = DispatchQueue
  import opened AdmissionOutcomes
  import opened AdmissionProtocol
  import opened AdmissionInvariant

  lemma Reachable(acts: seq<Action>)
    ensures Inv(Run(INITIAL, acts))
  {
    InitialInv();
    RunKeeps(INITIAL, acts);
  }

  /**
   Over every interleaving of deliveries, claims, lease expiries and crashes: a message has a dispatch exactly when its
   outcome is completed and allowed, never more than one, and for the target the outcome names.
   */
  lemma OneDispatchPerAdmission(acts: seq<Action>, m: nat)
    ensures var w := Run(INITIAL, acts);
      && ((exists i: nat :: i < |w.table| && w.table[i].message == m) <==> m in w.rows && IsAllowed(w.rows[m]))
      && (forall i: nat, j: nat ::
            i < |w.table| && j < |w.table| && w.table[i].message == m && w.table[j].message == m ==> i == j)
      && (forall i: nat :: i < |w.table| && w.table[i].message == m ==>
            m in w.rows && RowTarget(w.rows[m]) == Some(w.table[i].target))
  {
    var w := Run(INITIAL, acts);
    Reachable(acts);
    FindDispatchIff(w.table, m);
  }

  /** All deliveries of a message that answer give the identical answer, and it is the stored one. */
  lemma AnswersAgree(acts: seq<Action>, j: nat, k: nat)
    requires var w := Run(INITIAL, acts);
      && j < |w.processes| && k < |w.processes| && w.processes[j].message == w.processes[k].message
      && w.processes[j].phase.Finished? && w.processes[k].phase.Finished?
    ensures var w := Run(INITIAL, acts);
      && w.processes[j].phase == w.processes[k].phase
      && HoldsOutcome(w.rows, w.processes[j].message, w.processes[j].phase.result)
  {
    Reachable(acts);
    PhaseOkOf(Run(INITIAL, acts), j);
    PhaseOkOf(Run(INITIAL, acts), k);
  }

  /** A stored outcome can always be answered again: the replay finds it readable and its dispatch in place. */
  lemma ReplayAnswers(acts: seq<Action>, k: nat, c: Choice)
    requires var w := Run(INITIAL, acts); k < |w.processes| && w.processes[k].phase.Replaying?
    ensures var w := Run(INITIAL, acts);
      var o := ToAdmissionOutcome(w.processes[k].phase.row);
      o.Some? && Advance(w, k, c) == AtPhase(w, k, Finished(o.value))
  {
    var w := Run(INITIAL, acts);
    Reachable(acts);
    PhaseOkOf(w, k);
    ReplayFinishes(w, w.processes[k].message);
  }

  lemma ReplayFinishes(w: World, m: nat)
    requires Inv(w) && m in w.rows && w.rows[m].state.Completed?
    ensures ToAdmissionOutcome(w.rows[m]).Some?
    ensures Replay(w.table, m, w.rows[m]) == Finished(ToAdmissionOutcome(w.rows[m]).value)
  {
    assert RowOk(m, w.rows[m]);
    FindDispatchIff(w.table, m);
  }

  // ----- Rows over time -----

  /** A claim is granted: a new row, or one that was free to take. */
  predicate GrantsRow(rows: map<nat, Row>, m: nat, row: Row, token: Token, now: Time) {
    && row.state.Pending? && row.token == Some(token)
    && (if m in rows
          then CanClaim(rows[m], now) && row.attempts == rows[m].attempts + 1 && RequestOf(row) == RequestOf(rows[m])
        else row.attempts == 1)
  }

  /** A claim is ended by its holder, by completion or release. */
  predicate EndsRow(rows: map<nat, Row>, m: nat, row: Row, holder: Token) {
    && m in rows && rows[m].state.Pending? && rows[m].token == Some(holder) && row.token.None?
    && row.attempts == rows[m].attempts && RequestOf(row) == RequestOf(rows[m])
  }

  /** All that a statement can do to the outcome rows. */
  datatype Effect = Nothing | NewClaim(granted: Row, token: Token) | Ended(ended: Row)

  predicate Effects(w: World, w': World, k: nat, now: Time, e: Effect)
    requires k < |w.processes| == |w'.processes|
  {
    var m := w.processes[k].message;
    var before, after := TokenOf(w.processes[k].phase), TokenOf(w'.processes[k].phase);
    match e
    case Nothing => w'.rows == w.rows && (before.None? ==> after.None?)
    case NewClaim(row, token) =>
      && w'.rows == w.rows[m := row] && GrantsRow(w.rows, m, row, token, now)
      && before.None? && after == Some(token) && token !in w.used
    case Ended(row) =>
      w'.rows == w.rows[m := row] && before.Some? && EndsRow(w.rows, m, row, before.value)
  }

  lemma CreateEffect(w: World, k: nat, c: Choice, w': World) returns (e: Effect)
    requires k < |w.processes| && w.processes[k].phase.Creating? && w' == Create(w, k, c)
    ensures |w'.processes| == |w.processes| && Effects(w, w', k, c.now, e)
  {
    var m := w.processes[k].message;
    if c.token in w.used || m in w.rows {
      e := Nothing;
    } else {
      var row := PendingRow(m, c.request, c.token, c.now + c.lease);
      assert row.state.Pending? && row.token == Some(c.token) && row.attempts == 1;
      e := NewClaim(row, c.token);
    }
  }

  lemma ClaimEffect(w: World, k: nat, c: Choice, w': World) returns (e: Effect)
    requires k < |w.processes| && w.processes[k].phase.Claiming? && w' == Claim(w, k, c)
    ensures |w'.processes| == |w.processes| && Effects(w, w', k, c.now, e)
  {
    var m := w.processes[k].message;
    e := if c.token in w.used || m !in w.rows || !CanClaim(w.rows[m], c.now) then Nothing
         else NewClaim(ClaimRow(w.rows[m], c.token, c.now + c.lease), c.token);
  }

  lemma ReleaseEffect(w: World, k: nat, t: Token, now: Time, w': World) returns (e: Effect)
    requires k < |w.processes| && w.processes[k].phase == Releasing(t) && w' == Release(w, k, t)
    ensures |w'.processes| == |w.processes| && Effects(w, w', k, now, e)
  {
    var m := w.processes[k].message;
    if m in w.rows && w.rows[m].state.Pending? && w.rows[m].token == Some(t) {
      e := Ended(ReleaseRow(w.rows[m], t));
    } else {
      assert m in w.rows ==> w.rows[m := w.rows[m]] == w.rows;
      e := Nothing;
    }
  }

  lemma StagedEnds(rows: map<nat, Row>, m: nat, t: Token, o: Outcome, now: Time)
    requires m in rows
    ensures StageCompletion(rows[m], t, o, now).Some? ==> EndsRow(rows, m, StageCompletion(rows[m], t, o, now).value, t)
  {
  }

  lemma CompletionEffect(w: World, k: nat, t: Token, o: Outcome, now: Time, w': World) returns (e: Effect)
    requires k < |w.processes|
    requires || (w.processes[k].phase == Allowing(t, o) && w' == Allow(w, k, t, o, now))
             || (w.processes[k].phase == DenyCommit(t, o) && w' == Deny(w, k, t, o, now))
    ensures |w'.processes| == |w.processes| && Effects(w, w', k, now, e)
  {
    var m := w.processes[k].message;
    e := Nothing;
    if m in w.rows {
      StagedEnds(w.rows, m, t, o, now);
      var staged := StageCompletion(w.rows[m], t, o, now);
      if staged.Some? && w'.processes[k].phase.Finished? { e := Ended(staged.value); }
    }
  }

  lemma LegacyEffect(w: World, k: nat, c: Choice, w': World)
    requires Inv(w) && k < |w.processes| && (w.processes[k].phase.Adopting? || w.processes[k].phase.LegacyClosing?)
    requires w' == Advance(w, k, c)
    ensures |w'.processes| == |w.processes| && Effects(w, w', k, c.now, Nothing)
  {
    PhaseOkOf(w, k);
    LegacyKeeps(w, k, c.now);
  }

  lemma ReadEffect(w: World, k: nat, c: Choice, w': World)
    requires k < |w.processes| && !Writes(w.processes[k].phase) && w' == Advance(w, k, c)
    requires PhaseOk(w.rows, w.table, w.used, w.processes[k].message, w.processes[k].phase)
    ensures |w'.processes| == |w.processes| && Effects(w, w', k, c.now, Nothing)
  {
    LookIsSound(w, w.processes[k].message, w.processes[k].phase, c);
  }

  lemma WriteEffect(w: World, k: nat, c: Choice, w': World) returns (e: Effect)
    requires k < |w.processes| && Writes(w.processes[k].phase) && w' == Advance(w, k, c)
    requires !w.processes[k].phase.Adopting? && !w.processes[k].phase.LegacyClosing?
    ensures |w'.processes| == |w.processes| && Effects(w, w', k, c.now, e)
  {
    match w.processes[k].phase
    case Creating => e := CreateEffect(w, k, c, w');
    case Claiming => e := ClaimEffect(w, k, c, w');
    case Allowing(t, o) => e := CompletionEffect(w, k, t, o, c.now, w');
    case DenyCommit(t, o) => e := CompletionEffect(w, k, t, o, c.now, w');
    case Releasing(t) => e := ReleaseEffect(w, k, t, c.now, w');
    case Repairing(o) => e := Nothing;
  }

  /** Every statement does nothing to the rows, is granted a claim that was free, or ends the claim it holds. */
  lemma AdvanceEffect(w: World, k: nat, c: Choice, w': World) returns (e: Effect)
    requires Inv(w) && k < |w.processes| && w' == Advance(w, k, c)
    ensures |w'.processes| == |w.processes| && Effects(w, w', k, c.now, e)
  {
    var p := w.processes[k].phase;
    if p.Adopting? || p.LegacyClosing? {
      LegacyEffect(w, k, c, w');
      e := Nothing;
    } else if Writes(p) {
      e := WriteEffect(w, k, c, w');
    } else {
      PhaseOkOf(w, k);
      ReadEffect(w, k, c, w');
      e := Nothing;
    }
  }

  lemma StepRowsGrow(w: World, act: Action)
    requires Inv(w)
    ensures RowsGrow(w.rows, Step(w, act).rows)
  {
    if act.Proceed? && act.process < |w.processes| {
      var e := AdvanceEffect(w, act.process, act.choice, Step(w, act));
    }
  }

  lemma {:induction false} RunRowsGrow(w: World, acts: seq<Action>)
    requires Inv(w)
    ensures RowsGrow(w.rows, Run(w, acts).rows) && Inv(Run(w, acts))
    decreases |acts|
  {
    if acts != [] {
      StepRowsGrow(w, acts[0]);
      StepKeeps(w, acts[0]);
      RunRowsGrow(Step(w, acts[0]), acts[1..]);
    }
  }

  /** A completed outcome never changes, whatever happens afterwards. */
  lemma CompletedNeverChanges(w: World, acts: seq<Action>, m: nat)
    requires Inv(w) && m in w.rows && w.rows[m].state.Completed?
    ensures m in Run(w, acts).rows && Run(w, acts).rows[m] == w.rows[m]
  {
    RunRowsGrow(w, acts);
  }

  /** Every evaluation of a message in its whole life uses the request its first claim stored. */
  lemma RequestIsFrozen(w: World, acts: seq<Action>, m: nat, k: nat)
    requires Inv(w) && m in w.rows
    requires k < |Run(w, acts).processes| && Run(w, acts).processes[k].message == m
      && Run(w, acts).processes[k].phase.Evaluating?
    ensures Some(Run(w, acts).processes[k].phase.request) == RequestOf(w.rows[m])
  {
    RunRowsGrow(w, acts);
    PhaseOkOf(Run(w, acts), k);
  }

  // ----- Claims -----

  function Attempts(w: World, m: nat): nat {
    if m in w.rows then w.rows[m].attempts else 0
  }

  /** The step hands a claim of the message to a delivery. */
  predicate Grants(w: World, act: Action, m: nat) {
    && act.Proceed? && act.process < |w.processes| && w.processes[act.process].message == m
    && TokenOf(w.processes[act.process].phase).None?
    && act.process < |Step(w, act).processes| && TokenOf(Step(w, act).processes[act.process].phase).Some?
  }

  function CountGrants(w: World, acts: seq<Action>, m: nat): nat
    decreases |acts|
  {
    if acts == [] then 0 else (if Grants(w, acts[0], m) then 1 else 0) + CountGrants(Step(w, acts[0]), acts[1..], m)
  }

  lemma StepCounts(w: World, act: Action, m: nat)
    requires Inv(w)
    ensures Attempts(Step(w, act), m) == Attempts(w, m) + if Grants(w, act, m) then 1 else 0
  {
    if act.Proceed? && act.process < |w.processes| {
      var e := AdvanceEffect(w, act.process, act.choice, Step(w, act));
    }
  }

  /** The attempt counter of a message is the number of claims granted, over every run. */
  lemma {:induction false} AttemptsCountGrants(w: World, acts: seq<Action>, m: nat)
    requires Inv(w)
    ensures Attempts(Run(w, acts), m) == Attempts(w, m) + CountGrants(w, acts, m)
    decreases |acts|
  {
    if acts != [] {
      StepCounts(w, acts[0], m);
      StepKeeps(w, acts[0]);
      AttemptsCountGrants(Step(w, acts[0]), acts[1..], m);
    }
  }

  /** While a lease runs, only its holder changes who holds the claim. */
  lemma LiveLeaseIsKept(w: World, k: nat, c: Choice, m: nat)
    requires Inv(w) && k < |w.processes| && m in w.rows && w.rows[m].state.Pending?
    requires w.rows[m].token.Some? && w.rows[m].lease.Some? && w.rows[m].lease.value > c.now
    ensures m in Advance(w, k, c).rows
    ensures Advance(w, k, c).rows[m].token == w.rows[m].token
      || (w.processes[k].message == m && TokenOf(w.processes[k].phase) == w.rows[m].token)
  {
    var e := AdvanceEffect(w, k, c, Advance(w, k, c));
  }

  /** A delivery whose claim was taken over neither completes nor releases anything. */
  lemma StaleTokenIsPowerless(w: World, k: nat, c: Choice)
    requires Inv(w) && k < |w.processes| && TokenOf(w.processes[k].phase).Some?
    requires w.processes[k].message in w.rows && w.rows[w.processes[k].message].token != TokenOf(w.processes[k].phase)
    ensures Advance(w, k, c).rows == w.rows && Advance(w, k, c).table == w.table
  {
    PhaseOkOf(w, k);
    var m, p := w.processes[k].message, w.processes[k].phase;
    assert w.rows[m := w.rows[m]] == w.rows;
  }

  ghost predicate Retired(w: World, t: Token) {
    t in w.used && forall m :: m in w.rows ==> w.rows[m].token != Some(t)
  }

  lemma StepKeepsRetired(w: World, act: Action, t: Token)
    requires Inv(w) && Retired(w, t)
    ensures Retired(Step(w, act), t)
  {
    if act.Proceed? && act.process < |w.processes| {
      var e := AdvanceEffect(w, act.process, act.choice, Step(w, act));
    }
  }

  /** A token that has left its row never comes back: its holder stays powerless for ever. */
  lemma {:induction false} RetiredForEver(w: World, acts: seq<Action>, t: Token)
    requires Inv(w) && Retired(w, t)
    ensures Retired(Run(w, acts), t) && Inv(Run(w, acts))
    decreases |acts|
  {
    if acts != [] {
      StepKeepsRetired(w, acts[0], t);
      StepKeeps(w, acts[0]);
      RetiredForEver(Step(w, acts[0]), acts[1..], t);
    }
  }
}
