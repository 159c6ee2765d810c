/** What every interleaving of deliveries keeps, when no dispatch predates its outcome. */
module AdmissionInvariant {
  import opened Basics
  import Queue = DispatchQueue
  import opened AdmissionOutcomes
  import opened AdmissionProtocol

  // ----- The invariant -----

  /** A row satisfies its constraints, keeps a readable request and, once completed, a readable decision. */
  predicate RowOk(m: nat, r: Row) {
    && r.message == m && RowChecks(r) && r.origin.Runtime? && RequestOf(r).Some?
    && (r.state.Completed? ==> ToAdmissionOutcome(r).Some?)
  }

  ghost predicate RowsOk(rows: map<nat, Row>) {
    forall m :: m in rows ==> RowOk(m, rows[m])
  }

  /** A message has a dispatch exactly when its outcome allows it, and then both name the same target. */
  ghost predicate Linked(rows: map<nat, Row>, table: Queue.Table) {
    && (forall i: nat :: i < |table| ==>
          table[i].message in rows && IsAllowed(rows[table[i].message])
            && RowTarget(rows[table[i].message]) == Some(table[i].target))
    && (forall m :: m in rows && IsAllowed(rows[m]) ==> FindDispatch(table, m).Some?)
  }

  function TokenOf(p: Phase): Option<Token> {
    match p
    case GotToken(t) => Some(t)
    case Claimed(t, _) => Some(t)
    case LegacyClosing(t, _) => Some(t)
    case LegacyLost(t, _) => Some(t)
    case Evaluating(t, _) => Some(t)
    case Allowing(t, _) => Some(t)
    case Denying(t, _) => Some(t)
    case DenyCommit(t, _) => Some(t)
    case Releasing(t) => Some(t)
    case _ => None
  }

  predicate HoldsRequest(rows: map<nat, Row>, m: nat, facts: RequestFacts) {
    m in rows && RequestOf(rows[m]) == Some(facts)
  }

  predicate HoldsOutcome(rows: map<nat, Row>, m: nat, o: Outcome) {
    m in rows && rows[m].state.Completed? && ToAdmissionOutcome(rows[m]) == Some(o)
  }

  /** What a delivery remembers is still true of the tables. */
  predicate PhaseOk(rows: map<nat, Row>, table: Queue.Table, used: set<Token>, m: nat, p: Phase) {
    && (TokenOf(p).Some? ==> TokenOf(p).value in used && m in rows)
    && (p.Adopting? || p.AdoptLost? || p.LegacyClosing? || p.LegacyLost? ==>
          p.dispatch < |table| && table[p.dispatch].message == m)
    && (p.Claimed? && p.facts.Some? ==> HoldsRequest(rows, m, p.facts.value))
    && (p.Evaluating? ==> HoldsRequest(rows, m, p.request))
    && (p.Allowing? || p.Denying? || p.DenyCommit? ==>
          WellFormed(p.outcome) && p.outcome.message == m && p.outcome.admitted == p.Allowing?)
    && (p.Replaying? ==> m in rows && rows[m] == p.row && p.row.state.Completed?)
    && (p.Repairing? ==> HoldsOutcome(rows, m, p.admission) && p.admission.admitted)
    && (p.Finished? ==> HoldsOutcome(rows, m, p.result))
  }

  ghost predicate ProcessesOk(w: World) {
    forall k: nat :: k < |w.processes| ==>
      PhaseOk(w.rows, w.table, w.used, w.processes[k].message, w.processes[k].phase)
  }

  /** No two deliveries hold the same token. */
  ghost predicate TokensApart(processes: seq<Process>) {
    forall j: nat, k: nat :: j < k < |processes| && TokenOf(processes[j].phase).Some? ==>
      TokenOf(processes[j].phase) != TokenOf(processes[k].phase)
  }

  ghost predicate RowTokensUsed(rows: map<nat, Row>, used: set<Token>) {
    forall m :: m in rows && rows[m].token.Some? ==> rows[m].token.value in used
  }

  ghost predicate Inv(w: World) {
    && RowsOk(w.rows) && Linked(w.rows, w.table) && Queue.OnePerMessage(w.table)
    && ProcessesOk(w) && TokensApart(w.processes) && RowTokensUsed(w.rows, w.used)
  }

  // ----- Growth -----

  /** Rows keep their request; completed rows keep everything. */
  ghost predicate RowsGrow(rows: map<nat, Row>, rows': map<nat, Row>) {
    forall m :: m in rows ==>
      m in rows' && RequestOf(rows'[m]) == RequestOf(rows[m]) && (rows[m].state.Completed? ==> rows'[m] == rows[m])
  }

  ghost predicate TableGrows(t: Queue.Table, t': Queue.Table) {
    |t| <= |t'| && forall i: nat :: i < |t| ==> t'[i].message == t[i].message && t'[i].target == t[i].target
  }

  lemma PhaseStays(rows: map<nat, Row>, t: Queue.Table, used: set<Token>, rows': map<nat, Row>, t': Queue.Table,
                   used': set<Token>, m: nat, p: Phase)
    requires PhaseOk(rows, t, used, m, p) && RowsGrow(rows, rows') && TableGrows(t, t') && used <= used'
    ensures PhaseOk(rows', t', used', m, p)
  {
  }

  /** Whatever one delivery writes, the others are undisturbed. */
  lemma OthersStay(w: World, w': World, k: nat)
    requires ProcessesOk(w) && RowsGrow(w.rows, w'.rows) && TableGrows(w.table, w'.table) && w.used <= w'.used
    requires k < |w.processes| == |w'.processes| && w'.processes == w.processes[k := w'.processes[k]]
      && w'.processes[k].message == w.processes[k].message
    requires PhaseOk(w'.rows, w'.table, w'.used, w'.processes[k].message, w'.processes[k].phase)
    ensures ProcessesOk(w')
  {
    forall j: nat | j < |w'.processes|
      ensures PhaseOk(w'.rows, w'.table, w'.used, w'.processes[j].message, w'.processes[j].phase)
    {
      if j != k {
        PhaseStays(w.rows, w.table, w.used, w'.rows, w'.table, w'.used, w.processes[j].message, w.processes[j].phase);
      }
    }
  }

  /** A delivery keeps its token, gives it up or draws an unused one. */
  lemma TokensStayApart(w: World, k: nat, phase: Phase)
    requires ProcessesOk(w) && TokensApart(w.processes) && k < |w.processes|
    requires TokenOf(phase).None? || TokenOf(phase) == TokenOf(w.processes[k].phase) || TokenOf(phase).value !in w.used
    ensures TokensApart(w.processes[k := w.processes[k].(phase := phase)])
  {
    assert forall j: nat :: j < |w.processes| ==>
      PhaseOk(w.rows, w.table, w.used, w.processes[j].message, w.processes[j].phase);
  }

  // ----- Reads -----

  lemma EvaluateIsSound(rows: map<nat, Row>, table: Queue.Table, used: set<Token>, m: nat, token: Token,
                        facts: RequestFacts, c: Choice)
    requires token in used && m in rows
    ensures PhaseOk(rows, table, used, m, Evaluate(m, token, facts, c))
      && TokenOf(Evaluate(m, token, facts, c)) == Some(token)
  {
    AdmitIsWellFormed(c.candidate.(message := m, request := facts), c.environment);
  }

  lemma ReplayIsSound(rows: map<nat, Row>, table: Queue.Table, used: set<Token>, m: nat, row: Row)
    requires m in rows && rows[m] == row && row.state.Completed?
    ensures PhaseOk(rows, table, used, m, Replay(table, m, row)) && TokenOf(Replay(table, m, row)).None?
  {
  }

  lemma EarlyLookIsSound(w: World, m: nat, p: Phase, c: Choice)
    requires PhaseOk(w.rows, w.table, w.used, m, p) && !p.Evaluating? && !p.Replaying?
    ensures PhaseOk(w.rows, w.table, w.used, m, Look(w, m, p, c))
    ensures TokenOf(Look(w, m, p, c)).None? || TokenOf(Look(w, m, p, c)) == TokenOf(p)
  {
  }

  lemma LookIsSound(w: World, m: nat, p: Phase, c: Choice)
    requires PhaseOk(w.rows, w.table, w.used, m, p)
    ensures PhaseOk(w.rows, w.table, w.used, m, Look(w, m, p, c))
    ensures TokenOf(Look(w, m, p, c)).None? || TokenOf(Look(w, m, p, c)) == TokenOf(p)
  {
    match p
    case Evaluating(t, facts) => EvaluateIsSound(w.rows, w.table, w.used, m, t, facts, c);
    case Replaying(row) => ReplayIsSound(w.rows, w.table, w.used, m, row);
    case _ => EarlyLookIsSound(w, m, p, c);
  }

  lemma PhaseOkOf(w: World, k: nat)
    requires Inv(w) && k < |w.processes|
    ensures PhaseOk(w.rows, w.table, w.used, w.processes[k].message, w.processes[k].phase)
  {
  }

  lemma MoveKeeps(w: World, k: nat, phase: Phase)
    requires Inv(w) && k < |w.processes| && PhaseOk(w.rows, w.table, w.used, w.processes[k].message, phase)
    requires TokenOf(phase).None? || TokenOf(phase) == TokenOf(w.processes[k].phase)
    ensures Inv(AtPhase(w, k, phase))
  {
    OthersStay(w, AtPhase(w, k, phase), k);
    TokensStayApart(w, k, phase);
  }

  // ----- Writes to one row -----

  lemma LinkedStays(rows: map<nat, Row>, table: Queue.Table, m: nat, row: Row)
    requires Linked(rows, table) && (m in rows ==> !IsAllowed(rows[m])) && !IsAllowed(row)
    ensures Linked(rows[m := row], table)
  {
    assert forall i: nat :: i < |table| ==> table[i].message != m;
  }

  /** A write to a row that is not completed, by the delivery that moves on. */
  lemma RowWriteKeeps(w: World, k: nat, row: Row, phase: Phase, used: set<Token>)
    requires Inv(w) && k < |w.processes| && w.used <= used
    requires var m := w.processes[k].message;
      && (m in w.rows ==> !w.rows[m].state.Completed? && RequestOf(row) == RequestOf(w.rows[m]))
      && RowOk(m, row) && !IsAllowed(row) && (row.token.Some? ==> row.token.value in used)
      && PhaseOk(w.rows[m := row], w.table, used, m, phase)
    requires TokenOf(phase).None? || TokenOf(phase) == TokenOf(w.processes[k].phase) || TokenOf(phase).value !in w.used
    ensures Inv(WithRow(w, k, row, phase).(used := used))
  {
    var m := w.processes[k].message;
    var w' := WithRow(w, k, row, phase).(used := used);
    LinkedStays(w.rows, w.table, m, row);
    RowsChange(w.rows, w.used, m, row, used);
    OthersStay(w, w', k);
    TokensStayApart(w, k, phase);
  }

  lemma RowsChange(rows: map<nat, Row>, before: set<Token>, m: nat, row: Row, used: set<Token>)
    requires RowsOk(rows) && RowTokensUsed(rows, before) && before <= used
    requires m in rows ==> !rows[m].state.Completed? && RequestOf(row) == RequestOf(rows[m])
    requires RowOk(m, row) && (row.token.Some? ==> row.token.value in used)
    ensures RowsOk(rows[m := row]) && RowTokensUsed(rows[m := row], used) && RowsGrow(rows, rows[m := row])
  {
  }

  lemma PendingIsSound(m: nat, request: RequestFacts, token: Token, lease: Time)
    ensures var row := PendingRow(m, request, token, lease);
      RowOk(m, row) && row.state.Pending? && row.token == Some(token) && RequestOf(row) == Some(request)
  {
    RequestRoundTrip(m, request, token, lease);
  }

  lemma InsertKeeps(w: World, k: nat, row: Row, token: Token, request: RequestFacts, w': World)
    requires Inv(w) && k < |w.processes| && w.processes[k].message !in w.rows && token !in w.used
    requires w' == Grant(w, k, row, Claimed(token, Some(request)), token)
    requires RowOk(w.processes[k].message, row) && row.state.Pending? && row.token == Some(token)
      && RequestOf(row) == Some(request)
    ensures Inv(w')
  {
    var m := w.processes[k].message;
    assert HoldsRequest(w.rows[m := row], m, request);
    RowWriteKeeps(w, k, row, Claimed(token, Some(request)), w.used + {token});
  }

  lemma FirstClaimKeeps(w: World, k: nat, c: Choice, w': World)
    requires Inv(w) && k < |w.processes| && w.processes[k].message !in w.rows && c.token !in w.used
      && w' == Create(w, k, c)
    ensures Inv(w')
  {
    var m := w.processes[k].message;
    PendingIsSound(m, c.request, c.token, c.now + c.lease);
    InsertKeeps(w, k, PendingRow(m, c.request, c.token, c.now + c.lease), c.token, c.request, w');
  }

  lemma CreateKeeps(w: World, k: nat, c: Choice, w': World)
    requires Inv(w) && k < |w.processes| && w.processes[k].phase.Creating? && w' == Create(w, k, c)
    ensures Inv(w')
  {
    if c.token !in w.used {
      if w.processes[k].message in w.rows { MoveKeeps(w, k, CreateLost); } else { FirstClaimKeeps(w, k, c, w'); }
    }
  }

  lemma ClaimIsSound(m: nat, r: Row, token: Token, lease: Time)
    requires RowOk(m, r) && r.state.Pending?
    ensures var row := ClaimRow(r, token, lease);
      RowOk(m, row) && row.state.Pending? && row.token == Some(token) && RequestOf(row) == RequestOf(r)
  {
  }

  lemma RetokenKeeps(w: World, k: nat, row: Row, token: Token, w': World)
    requires Inv(w) && k < |w.processes| && token !in w.used && w' == Grant(w, k, row, GotToken(token), token)
    requires var m := w.processes[k].message;
      && m in w.rows && w.rows[m].state.Pending? && RowOk(m, row) && row.state.Pending? && row.token == Some(token)
      && RequestOf(row) == RequestOf(w.rows[m])
    ensures Inv(w')
  {
    RowWriteKeeps(w, k, row, GotToken(token), w.used + {token});
  }

  lemma NextClaimKeeps(w: World, k: nat, c: Choice, w': World)
    requires Inv(w) && k < |w.processes| && c.token !in w.used && w' == Claim(w, k, c)
    requires w.processes[k].message in w.rows && CanClaim(w.rows[w.processes[k].message], c.now)
    ensures Inv(w')
  {
    var m := w.processes[k].message;
    ClaimIsSound(m, w.rows[m], c.token, c.now + c.lease);
    RetokenKeeps(w, k, ClaimRow(w.rows[m], c.token, c.now + c.lease), c.token, w');
  }

  lemma ClaimKeeps(w: World, k: nat, c: Choice, w': World)
    requires Inv(w) && k < |w.processes| && w.processes[k].phase.Claiming? && w' == Claim(w, k, c)
    ensures Inv(w')
  {
    var m := w.processes[k].message;
    if c.token !in w.used {
      if m in w.rows && CanClaim(w.rows[m], c.now) { NextClaimKeeps(w, k, c, w'); } else { MoveKeeps(w, k, ClaimLost); }
    }
  }

  lemma ReleaseKeeps(w: World, k: nat, token: Token)
    requires Inv(w) && k < |w.processes| && w.processes[k].phase == Releasing(token)
    ensures Inv(Release(w, k, token))
  {
    var m := w.processes[k].message;
    assert PhaseOk(w.rows, w.table, w.used, m, w.processes[k].phase);
    assert RowOk(m, w.rows[m]);
    if ReleaseRow(w.rows[m], token) == w.rows[m] {
      assert w.rows[m := w.rows[m]] == w.rows;
      MoveKeeps(w, k, Failed);
    } else {
      assert ERROR_CODE[0] != ' ';
      RowWriteKeeps(w, k, ReleaseRow(w.rows[m], token), Failed, w.used);
    }
  }

  /** A completed claim: a sound row with the same request that says exactly the outcome. */
  lemma StagedIsSound(m: nat, r: Row, token: Token, o: Outcome, now: Time)
    requires RowOk(m, r) && WellFormed(o) && o.message == m && StageCompletion(r, token, o, now).Some?
    ensures var row := StageCompletion(r, token, o, now).value;
      && RowOk(m, row) && RequestOf(row) == RequestOf(r) && row.state.Completed? && row.token.None?
         && row.attempts == r.attempts
      && ToAdmissionOutcome(row) == Some(o) && (IsAllowed(row) <==> o.admitted)
      && (o.admitted ==> RowTarget(row) == TargetOf(o.identity, o.workspace, o.thread) && RowTarget(row).Some?)
  {
    var d := CompletedDecision(o).value;
    FilledChecks(r, d, o, now);
    FilledReadsBack(r, d, o, now);
  }

  lemma CloseKeeps(w: World, k: nat, row: Row, o: Outcome)
    requires Inv(w) && k < |w.processes|
    requires var m := w.processes[k].message;
      && m in w.rows && w.rows[m].state.Pending? && RowOk(m, row) && row.state.Completed? && !IsAllowed(row)
         && row.token.None?
      && RequestOf(row) == RequestOf(w.rows[m]) && ToAdmissionOutcome(row) == Some(o)
    ensures Inv(WithRow(w, k, row, Finished(o)))
  {
    var m := w.processes[k].message;
    assert HoldsOutcome(w.rows[m := row], m, o);
    RowWriteKeeps(w, k, row, Finished(o), w.used);
  }

  lemma DenyKeeps(w: World, k: nat, token: Token, o: Outcome, now: Time)
    requires Inv(w) && k < |w.processes| && w.processes[k].phase == DenyCommit(token, o)
    ensures Inv(Deny(w, k, token, o, now))
  {
    var m := w.processes[k].message;
    assert PhaseOk(w.rows, w.table, w.used, m, w.processes[k].phase);
    var staged := StageCompletion(w.rows[m], token, o, now);
    if staged.None? {
      MoveKeeps(w, k, Releasing(token));
    } else {
      StagedIsSound(m, w.rows[m], token, o, now);
      CloseKeeps(w, k, staged.value, o);
    }
  }

  // ----- The write that admits -----

  lemma FindDispatchIff(table: Queue.Table, m: nat)
    ensures FindDispatch(table, m).Some? <==> exists i: nat :: i < |table| && table[i].message == m
  {
  }

  lemma LinkedAdmits(rows: map<nat, Row>, table: Queue.Table, m: nat, row: Row, d: Queue.Dispatch)
    requires Linked(rows, table) && m in rows && !IsAllowed(rows[m]) && IsAllowed(row)
    requires d.message == m && RowTarget(row) == Some(d.target)
    ensures Linked(rows[m := row], table + [d])
  {
    var rows', table' := rows[m := row], table + [d];
    assert forall i: nat :: i < |table| ==> table[i].message != m;
    forall n | n in rows' && IsAllowed(rows'[n]) ensures FindDispatch(table', n).Some? {
      if n == m {
        assert table'[|table|].message == m;
      } else {
        assert FindDispatch(table, n).Some?;
        assert table'[FindDispatch(table, n).value].message == n;
      }
    }
  }

  /** A pending outcome has no dispatch: completing it always inserts one. */
  lemma PendingHasNone(w: World, m: nat)
    requires Linked(w.rows, w.table) && m in w.rows && !IsAllowed(w.rows[m])
    ensures FindDispatch(w.table, m).None?
  {
  }

  lemma AllowKeeps(w: World, k: nat, token: Token, o: Outcome, now: Time)
    requires Inv(w) && k < |w.processes| && w.processes[k].phase == Allowing(token, o)
    ensures Inv(Allow(w, k, token, o, now))
  {
    var m := w.processes[k].message;
    assert PhaseOk(w.rows, w.table, w.used, m, w.processes[k].phase);
    assert RowOk(m, w.rows[m]);
    var staged := StageCompletion(w.rows[m], token, o, now);
    if staged.None? {
      MoveKeeps(w, k, Releasing(token));
    } else {
      StagedIsSound(m, w.rows[m], token, o, now);
      AdmitKeeps(w, k, staged.value, o, now);
    }
  }

  lemma AdmitKeepsProcesses(w: World, k: nat, row: Row, o: Outcome, table: Queue.Table)
    requires Inv(w) && k < |w.processes| && TableGrows(w.table, table)
    requires var m := w.processes[k].message;
      && m in w.rows && w.rows[m].state.Pending? && row.state.Completed? && RequestOf(row) == RequestOf(w.rows[m])
      && ToAdmissionOutcome(row) == Some(o)
    ensures ProcessesOk(WithRow(w, k, row, Finished(o)).(table := table))
    ensures TokensApart(WithRow(w, k, row, Finished(o)).processes)
  {
    var m := w.processes[k].message;
    assert HoldsOutcome(w.rows[m := row], m, o);
    OthersStay(w, WithRow(w, k, row, Finished(o)).(table := table), k);
    TokensStayApart(w, k, Finished(o));
  }

  lemma AdmitKeeps(w: World, k: nat, row: Row, o: Outcome, now: Time)
    requires Inv(w) && k < |w.processes| && w.processes[k].message in w.rows
      && w.rows[w.processes[k].message].state.Pending?
    requires var m := w.processes[k].message;
      && RowOk(m, row) && IsAllowed(row) && row.token.None? && RequestOf(row) == RequestOf(w.rows[m])
      && ToAdmissionOutcome(row) == Some(o) && RowTarget(row).Some?
    ensures var m := w.processes[k].message;
      && Queue.Enqueue(w.table, m, RowTarget(row).value, now).Inserted?
      && Inv(WithRow(w, k, row, Finished(o)).(table := Queue.Enqueue(w.table, m, RowTarget(row).value, now).table))
  {
    var m := w.processes[k].message;
    PendingHasNone(w, m);
    var table := Queue.Enqueue(w.table, m, RowTarget(row).value, now).table;
    AdmitKeepsProcesses(w, k, row, o, table);
    LinkedAdmits(w.rows, w.table, m, row, table[|w.table|]);
  }

  // ----- Dispatches that are already there -----

  lemma DispatchedIsAllowed(w: World, d: nat)
    requires Linked(w.rows, w.table) && d < |w.table|
    ensures w.table[d].message in w.rows && IsAllowed(w.rows[w.table[d].message])
  {
  }

  /**
   A delivery that met a dispatch before its outcome finds the outcome in place: nothing is adopted or overwritten.
   */
  lemma LegacyKeeps(w: World, k: nat, now: Time)
    requires Inv(w) && k < |w.processes| && (w.processes[k].phase.Adopting? || w.processes[k].phase.LegacyClosing?)
    ensures var p := w.processes[k].phase;
      && p.dispatch < |w.table|
      && (p.Adopting? ==>
            Adopt(w, k, p.dispatch, now) == AtPhase(w, k, AdoptLost(p.dispatch)) && Inv(Adopt(w, k, p.dispatch, now)))
      && (p.LegacyClosing? ==>
            CloseLegacy(w, k, p.token, p.dispatch, now) == AtPhase(w, k, LegacyLost(p.token, p.dispatch))
            && Inv(CloseLegacy(w, k, p.token, p.dispatch, now)))
  {
    var m, p := w.processes[k].message, w.processes[k].phase;
    assert PhaseOk(w.rows, w.table, w.used, m, p);
    DispatchedIsAllowed(w, p.dispatch);
    if p.Adopting? {
      MoveKeeps(w, k, AdoptLost(p.dispatch));
    } else {
      MoveKeeps(w, k, LegacyLost(p.token, p.dispatch));
    }
  }

  lemma RepairKeeps(w: World, k: nat, o: Outcome, now: Time, w': World)
    requires Inv(w) && k < |w.processes| && w.processes[k].phase == Repairing(o) && w' == Repair(w, k, o, now)
    ensures Inv(w')
  {
    PhaseOkOf(w, k);
    assert FindDispatch(w.table, w.processes[k].message).Some?;
    var next := w'.processes[k].phase;
    assert w' == AtPhase(w, k, next) && (next.Failed? || next == Finished(o));
    MoveKeeps(w, k, next);
  }

  // ----- All steps -----

  predicate Writes(p: Phase) {
    p.Adopting? || p.LegacyClosing? || p.Creating? || p.Claiming? || p.Allowing? || p.DenyCommit? || p.Releasing?
      || p.Repairing?
  }

  lemma WriteKeeps(w: World, k: nat, c: Choice, w': World)
    requires Inv(w) && k < |w.processes| && Writes(w.processes[k].phase) && w' == Advance(w, k, c)
    ensures Inv(w')
  {
    PhaseOkOf(w, k);
    if Closes(w.processes[k].phase) { LateWriteKeeps(w, k, c, w'); } else { EarlyWriteKeeps(w, k, c, w'); }
  }

  predicate Closes(p: Phase) {
    p.Allowing? || p.DenyCommit? || p.Releasing? || p.Repairing?
  }

  lemma EarlyWriteKeeps(w: World, k: nat, c: Choice, w': World)
    requires Inv(w) && k < |w.processes| && w' == Advance(w, k, c)
    requires Writes(w.processes[k].phase) && !Closes(w.processes[k].phase)
    requires PhaseOk(w.rows, w.table, w.used, w.processes[k].message, w.processes[k].phase)
    ensures Inv(w')
  {
    match w.processes[k].phase
    case Adopting(d) => LegacyKeeps(w, k, c.now);
    case LegacyClosing(t, d) => LegacyKeeps(w, k, c.now);
    case Creating => CreateKeeps(w, k, c, w');
    case Claiming => ClaimKeeps(w, k, c, w');
  }

  lemma LateWriteKeeps(w: World, k: nat, c: Choice, w': World)
    requires Inv(w) && k < |w.processes| && w' == Advance(w, k, c) && Closes(w.processes[k].phase)
    requires PhaseOk(w.rows, w.table, w.used, w.processes[k].message, w.processes[k].phase)
    ensures Inv(w')
  {
    match w.processes[k].phase
    case Allowing(t, o) => AllowKeeps(w, k, t, o, c.now);
    case DenyCommit(t, o) => DenyKeeps(w, k, t, o, c.now);
    case Releasing(t) => ReleaseKeeps(w, k, t);
    case Repairing(o) => RepairKeeps(w, k, o, c.now, w');
  }

  lemma ReadKeeps(w: World, k: nat, c: Choice, w': World)
    requires Inv(w) && k < |w.processes| && !Writes(w.processes[k].phase) && w' == Advance(w, k, c)
    ensures Inv(w')
  {
    PhaseOkOf(w, k);
    LookIsSound(w, w.processes[k].message, w.processes[k].phase, c);
    MoveKeeps(w, k, Look(w, w.processes[k].message, w.processes[k].phase, c));
  }

  lemma AdvanceKeeps(w: World, k: nat, c: Choice, w': World)
    requires Inv(w) && w' == Advance(w, k, c)
    ensures Inv(w')
  {
    if k < |w.processes| {
      if Writes(w.processes[k].phase) { WriteKeeps(w, k, c, w'); } else { ReadKeeps(w, k, c, w'); }
    }
  }

  lemma WorkKeepsTable(t: Queue.Table, a: Queue.Action, limit: nat)
    requires !a.DoEnqueue?
    ensures var t' := Queue.Step(t, a, limit); |t'| == |t| && TableGrows(t, t')
  {
    Queue.StepFinishes(t, a, limit);
    Queue.StepGrows(t, a, limit);
  }

  lemma WorkKeeps(w: World, a: Queue.Action, limit: nat)
    requires Inv(w) && !a.DoEnqueue?
    ensures Inv(w.(table := Queue.Step(w.table, a, limit)))
  {
    var w' := w.(table := Queue.Step(w.table, a, limit));
    WorkKeepsTable(w.table, a, limit);
    forall m | m in w.rows && IsAllowed(w.rows[m]) ensures FindDispatch(w'.table, m).Some? {
      assert FindDispatch(w.table, m).Some?;
      assert w'.table[FindDispatch(w.table, m).value].message == m;
    }
    forall j: nat | j < |w'.processes|
      ensures PhaseOk(w'.rows, w'.table, w'.used, w'.processes[j].message, w'.processes[j].phase)
    {
      PhaseStays(w.rows, w.table, w.used, w'.rows, w'.table, w'.used, w.processes[j].message, w.processes[j].phase);
    }
  }

  lemma StepKeeps(w: World, act: Action)
    requires Inv(w)
    ensures Inv(Step(w, act))
  {
    match act
    case Deliver(m) =>
      assert ProcessesOk(Step(w, act));
      assert TokensApart(Step(w, act).processes);
    case Proceed(k, c) => AdvanceKeeps(w, k, c, Step(w, act));
    case Work(a, limit) => if !a.DoEnqueue? { WorkKeeps(w, a, limit); }
  }

  lemma {:induction false} RunKeeps(w: World, acts: seq<Action>)
    requires Inv(w)
    ensures Inv(Run(w, acts))
    decreases |acts|
  {
    if acts != [] {
      StepKeeps(w, acts[0]);
      RunKeeps(Step(w, acts[0]), acts[1..]);
    }
  }

  lemma InitialInv()
    ensures Inv(INITIAL)
  {
  }
}
