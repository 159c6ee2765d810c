/** Ingestion of a delivered message against the shared tables, one statement at a time. */
module AdmissionService {
  import opened Basics
  import Queue = DispatchQueue
  import opened AdmissionOutcomes
  import opened AdmissionProtocol
  import opened AdmissionInvariant
  import opened AdmissionPolicy
  import opened AdmissionClearance

  /** What a claim attempt comes back with. */
  datatype ClaimResult = Claim(token: Token, facts: Option<RequestFacts>) | Answered(row: Row) | Busy

  function PhaseAfter(r: ClaimResult): Phase {
    match r case Claim(t, facts) => Claimed(t, facts) case Answered(row) => Replaying(row) case Busy => Failed
  }

  function PhaseOfAnswer(r: Option<Outcome>): Phase {
    match r case Some(o) => Finished(o) case None => Failed
  }

  /**
   Some evaluation of the message on its frozen request clears every hurdle, or fails first at the one the answer names.
   */
  ghost predicate DecidedAs(log: seq<Action>, rows: map<nat, Row>, m: nat, o: Outcome) {
    exists i: nat, facts :: i < |log| && log[i].Proceed? && HoldsRequest(rows, m, facts)
      && PolicyGives(Seen(log[i], m, facts), log[i].choice.environment, o)
  }

  ghost predicate PolicyGives(c: Candidate, e: Environment, o: Outcome) {
    if o.admitted then ClearsAll(c, e) && Admits(c, e, o) else exists h :: FailsFirst(c, e, h) && Denies(c, e, h, o)
  }

  lemma AnswerIsPolicy(log: seq<Action>, m: nat, o: Outcome)
    requires HoldsOutcome(Run(INITIAL, log).rows, m, o)
    ensures DecidedAs(log, Run(INITIAL, log).rows, m, o)
  {
    var rows := Run(INITIAL, log).rows;
    StoredWasDecided(log, m);
    var i: nat, facts :| i < |log| && DecidedBy(log[i], rows, m, facts, o);
    EvaluationIsPolicy(Seen(log[i], m, facts), log[i].choice.environment, o);
  }

  lemma EvaluationIsPolicy(c: Candidate, e: Environment, o: Outcome)
    requires Admit(c, e) == Some(o)
    ensures PolicyGives(c, e, o)
  {
    AdmittedIff(c, e);
    if !o.admitted {
      var h :| !Clears(c, e, h);
      SomeHurdleFails(c, e, h);
      var g :| FailsFirst(c, e, g);
      DeniedAtFirst(c, e, g);
    }
  }

  /** `used` holds the tokens drawn so far; deliveries in progress are known to the proof only. */
  class MessageAdmissionService {
    var rows: map<nat, Row>
    var table: Queue.Table
    var used: set<Token>
    ghost var processes: seq<Process>
    ghost var log: seq<Action>

    constructor ()
      ensures Valid() && log == []
    {
      rows, table, used, processes, log := map[], [], {}, [], [];
    }

    ghost function State(): World
      reads this
    {
      World(rows, table, processes, used)
    }

    ghost predicate Valid()
      reads this
    {
      State() == Run(INITIAL, log)
    }

    /** Commits the bookkeeping of one action whose effect on the tables has been written. */
    ghost method Record(act: Action, before: World)
      requires before == Run(INITIAL, log)
      requires var w := Step(before, act); rows == w.rows && table == w.table && used == w.used
      modifies this`processes, this`log
      ensures Valid() && log == old(log) + [act] && State() == Step(before, act)
    {
      RunSnoc(INITIAL, log, act);
      processes := Step(before, act).processes;
      log := log + [act];
    }

    ghost predicate At(me: nat, m: nat, phase: Phase)
      reads this
    {
      me < |processes| && processes[me] == Process(m, phase)
    }

    /** Other deliveries, workers and operators commit between two statements of delivery `me`. */
    method Others(ghost me: nat)
      requires Valid() && me < |processes| && Grounded(table, processes[me].phase)
      modifies this
      ensures Valid() && old(log) <= log && me < |processes| && processes[me] == old(processes[me])
      ensures Grounded(table, processes[me].phase)
    {
    }

    method DrawToken() returns (t: Token)
      ensures t !in used
    {
      ghost var unused := UnusedToken(used);
      t :| t !in used;
    }

    /** One delivery of a message, from the first look at its outcome to the answer. */
    method Ingest(m: nat, c: Choice) returns (r: Option<Outcome>, ghost me: nat)
      requires Valid()
      modifies this
      ensures Valid() && old(log) <= log && At(me, m, PhaseOfAnswer(r))
      ensures r.Some? ==> HoldsOutcome(rows, m, r.value)
      ensures r.Some? ==> (r.value.admitted <==> exists i: nat :: i < |table| && table[i].message == m)
      ensures r.Some? ==> DecidedAs(log, rows, m, r.value)
    {
      me := |processes|;
      Record(Deliver(m), State());
      Others(me);
      var stored := m in rows;
      var row := if stored && rows[m].state.Completed? then Some(rows[m]) else None;
      Record(Proceed(me, c), State());
      if row.Some? {
        r := ReplayStored(m, row.value, c, me);
      } else {
        r := Admission(m, stored, c, me);
      }
      Explain(m, me);
    }

    lemma Explain(m: nat, me: nat)
      requires Valid() && me < |processes| && processes[me].message == m
      ensures processes[me].phase.Finished? ==>
        && HoldsOutcome(rows, m, processes[me].phase.result)
        && (processes[me].phase.result.admitted <==> exists i: nat :: i < |table| && table[i].message == m)
        && DecidedAs(log, rows, m, processes[me].phase.result)
    {
      InitialInv();
      RunKeeps(INITIAL, log);
      PhaseOkOf(State(), me);
      FindDispatchIff(table, m);
      if processes[me].phase.Finished? { AnswerIsPolicy(log, m, processes[me].phase.result); }
    }

    /** No completed outcome was seen: adopt a dispatch without one, or claim, evaluate and complete. */
    method Admission(m: nat, stored: bool, c: Choice, ghost me: nat) returns (r: Option<Outcome>)
      requires Valid() && At(me, m, SawOutcome(stored))
      modifies this
      ensures Valid() && old(log) <= log && At(me, m, PhaseOfAnswer(r))
    {
      Others(me);
      var dispatch := FindDispatch(table, m);
      Record(Proceed(me, c), State());
      var claim: ClaimResult;
      if stored {
        claim := ClaimExisting(m, c, me);
      } else if dispatch.Some? {
        r := AdoptDispatch(m, dispatch.value, c, me);
        return;
      } else {
        claim := CreatePending(m, c, me);
      }
      match claim
      case Busy => r := None;
      case Answered(row) => r := ReplayStored(m, row, c, me);
      case Claim(token, facts) => r := Decide(m, token, facts, c, me);
    }

    /** Inserts the pending outcome with the request it freezes; a row that came first is claimed or answered. */
    method CreatePending(m: nat, c: Choice, ghost me: nat) returns (r: ClaimResult)
      requires Valid() && At(me, m, Creating)
      modifies this
      ensures Valid() && old(log) <= log && At(me, m, PhaseAfter(r))
    {
      Others(me);
      var token := DrawToken();
      var inserted := InsertPending(m, c.(token := token), me);
      if inserted { r := Claim(token, Some(c.request)); } else { r := AfterLostCreate(m, c, me); }
    }

    method InsertPending(m: nat, c: Choice, ghost me: nat) returns (inserted: bool)
      requires Valid() && At(me, m, Creating) && c.token !in used
      modifies this
      ensures Valid() && old(log) <= log && State() == Create(old(State()), me, c)
      ensures inserted <==> m !in old(rows)
      ensures At(me, m, if inserted then Claimed(c.token, Some(c.request)) else CreateLost)
    {
      ghost var before := State();
      inserted := m !in rows;
      if inserted {
        var row := PendingRow(m, c.request, c.token, c.now + c.lease);
        rows := rows[m := row];
        used := used + {c.token};
        assert Step(before, Proceed(me, c)) == Grant(before, me, row, Claimed(c.token, Some(c.request)), c.token);
      }
      Record(Proceed(me, c), before);
    }

    method AfterLostCreate(m: nat, c: Choice, ghost me: nat) returns (r: ClaimResult)
      requires Valid() && At(me, m, CreateLost)
      modifies this
      ensures Valid() && old(log) <= log && At(me, m, PhaseAfter(r))
    {
      Others(me);
      ghost var before := State();
      if m !in rows {
        Record(Proceed(me, c), before);
        r := Busy;
      } else if rows[m].state.Completed? {
        r := Answered(rows[m]);
        Record(Proceed(me, c), before);
      } else {
        Record(Proceed(me, c), before);
        r := ClaimExisting(m, c, me);
      }
    }

    /** Takes a pending outcome that nobody holds, or whose lease has run out. */
    method ClaimExisting(m: nat, c: Choice, ghost me: nat) returns (r: ClaimResult)
      requires Valid() && At(me, m, Claiming)
      modifies this
      ensures Valid() && old(log) <= log && At(me, m, PhaseAfter(r))
    {
      Others(me);
      var token := DrawToken();
      ghost var before := State();
      ghost var drawn := c.(token := token);
      if m in rows && CanClaim(rows[m], c.now) {
        var row := rows[m];
        rows := rows[m :=
          row.(token := Some(token), lease := Some(c.now + c.lease), attempts := row.attempts + 1, lastError := None)];
        used := used + {token};
        Record(Proceed(me, drawn), before);
        r := ReadClaim(m, token, c, me);
      } else {
        Record(Proceed(me, drawn), before);
        r := AfterLostClaim(m, c, me);
      }
    }

    /** The claimed row as it now stands, with its frozen request. */
    method ReadClaim(m: nat, token: Token, c: Choice, ghost me: nat) returns (r: ClaimResult)
      requires Valid() && At(me, m, GotToken(token))
      modifies this
      ensures Valid() && old(log) <= log && At(me, m, PhaseAfter(r))
    {
      Others(me);
      r := if m in rows then Claim(token, RequestOf(rows[m])) else Busy;
      Record(Proceed(me, c), State());
    }

    method AfterLostClaim(m: nat, c: Choice, ghost me: nat) returns (r: ClaimResult)
      requires Valid() && At(me, m, ClaimLost)
      modifies this
      ensures Valid() && old(log) <= log && At(me, m, PhaseAfter(r))
    {
      Others(me);
      r := if m in rows && rows[m].state.Completed? then Answered(rows[m]) else Busy;
      Record(Proceed(me, c), State());
    }

    /** Under a claim: a dispatch that appeared meanwhile settles it, otherwise the frozen request is evaluated. */
    method Decide(m: nat, token: Token, facts: Option<RequestFacts>, c: Choice,
                  ghost me: nat) returns (r: Option<Outcome>)
      requires Valid() && At(me, m, Claimed(token, facts))
      modifies this
      ensures Valid() && old(log) <= log && At(me, m, PhaseOfAnswer(r))
    {
      Others(me);
      var dispatch := FindDispatch(table, m);
      Record(Proceed(me, c), State());
      if dispatch.Some? {
        r := CloseFromDispatch(m, token, dispatch.value, c, me);
      } else if facts.None? {
        r := ReleaseClaim(m, token, c, me);
      } else {
        r := EvaluateAndComplete(m, token, facts.value, c, me);
      }
    }

    method EvaluateAndComplete(m: nat, token: Token, facts: RequestFacts, c: Choice,
                               ghost me: nat) returns (r: Option<Outcome>)
      requires Valid() && At(me, m, Evaluating(token, facts))
      modifies this
      ensures Valid() && old(log) <= log && At(me, m, PhaseOfAnswer(r))
    {
      Others(me);
      var admission := Admit(c.candidate.(message := m, request := facts), c.environment);
      Record(Proceed(me, c), State());
      if admission.None? {
        r := ReleaseClaim(m, token, c, me);
      } else if admission.value.admitted && admission.value.reason.ReasonAllowed? {
        r := CompleteAllowed(m, token, admission.value, c, me);
      } else {
        r := Refuse(m, token, admission.value, c, me);
      }
    }

    /** Dispatch and outcome in one transaction, or neither. */
    method CompleteAllowed(m: nat, token: Token, o: Outcome, c: Choice, ghost me: nat) returns (r: Option<Outcome>)
      requires Valid() && At(me, m, Allowing(token, o))
      modifies this
      ensures Valid() && old(log) <= log && At(me, m, PhaseOfAnswer(r))
    {
      Others(me);
      var done := CommitAllowed(m, token, o, c, me);
      if done { r := Some(o); } else { r := ReleaseClaim(m, token, c, me); }
    }

    method CommitAllowed(m: nat, token: Token, o: Outcome, c: Choice, ghost me: nat) returns (done: bool)
      requires Valid() && At(me, m, Allowing(token, o))
      modifies this
      ensures Valid() && old(log) <= log && At(me, m, if done then Finished(o) else Releasing(token))
      ensures State() == Allow(old(State()), me, token, o, c.now)
      ensures !done ==> rows == old(rows) && table == old(table)
    {
      ghost var before := State();
      var target := TargetOf(o.identity, o.workspace, o.thread);
      var staged := if m in rows then StageCompletion(rows[m], token, o, c.now) else None;
      done := false;
      if staged.Some? && target.Some? {
        match Queue.Enqueue(table, m, target.value, c.now)
        case TargetConflict(_) =>
        case Existing(_) =>
          rows := rows[m := staged.value];
          done := true;
        case Inserted(t) =>
          rows, table := rows[m := staged.value], t;
          done := true;
      }
      Record(Proceed(me, c), before);
    }

    /** A denial is stored unless a dispatch appeared meanwhile. */
    method Refuse(m: nat, token: Token, o: Outcome, c: Choice, ghost me: nat) returns (r: Option<Outcome>)
      requires Valid() && At(me, m, Denying(token, o))
      modifies this
      ensures Valid() && old(log) <= log && At(me, m, PhaseOfAnswer(r))
    {
      Others(me);
      var dispatch := FindDispatch(table, m);
      Record(Proceed(me, c), State());
      if dispatch.Some? {
        r := CloseFromDispatch(m, token, dispatch.value, c, me);
      } else {
        Others(me);
        var done := CommitDenied(m, token, o, c, me);
        if done { r := Some(o); } else { r := ReleaseClaim(m, token, c, me); }
      }
    }

    method CommitDenied(m: nat, token: Token, o: Outcome, c: Choice, ghost me: nat) returns (done: bool)
      requires Valid() && At(me, m, DenyCommit(token, o))
      modifies this
      ensures Valid() && old(log) <= log && At(me, m, if done then Finished(o) else Releasing(token))
      ensures State() == Deny(old(State()), me, token, o, c.now)
      ensures table == old(table) && (!done ==> rows == old(rows))
    {
      ghost var before := State();
      var staged := if m in rows then StageCompletion(rows[m], token, o, c.now) else None;
      done := staged.Some? && !o.admitted && !o.shouldCreateTask;
      if done { rows := rows[m := staged.value]; }
      Record(Proceed(me, c), before);
    }

    /** The claim ends with the outcome that an existing dispatch implies. */
    method CloseFromDispatch(m: nat, token: Token, d: nat, c: Choice, ghost me: nat) returns (r: Option<Outcome>)
      requires Valid() && At(me, m, LegacyClosing(token, d)) && d < |table|
      modifies this
      ensures Valid() && old(log) <= log && At(me, m, PhaseOfAnswer(r))
    {
      Others(me);
      ghost var before := State();
      if m in rows && rows[m].state.Pending? && rows[m].token == Some(token) {
        var row := LegacyRow(m, table[d].target, rows[m].attempts, c.now);
        rows := rows[m := row];
        Record(Proceed(me, c), before);
        r := ReplayStored(m, row, c, me);
      } else {
        Record(Proceed(me, c), before);
        r := AfterLostClose(m, token, d, c, me);
      }
    }

    /** The claim was gone: the outcome that took its place must agree with the dispatch. */
    method AfterLostClose(m: nat, token: Token, d: nat, c: Choice, ghost me: nat) returns (r: Option<Outcome>)
      requires Valid() && At(me, m, LegacyLost(token, d)) && d < |table|
      modifies this
      ensures Valid() && old(log) <= log && At(me, m, PhaseOfAnswer(r))
    {
      Others(me);
      var row := if m in rows && CompatibleLegacy(rows[m], table[d]) then Some(rows[m]) else None;
      Record(Proceed(me, c), State());
      if row.Some? { r := ReplayStored(m, row.value, c, me); } else { r := ReleaseClaim(m, token, c, me); }
    }

    /** A dispatch that has no outcome yet is given one. */
    method AdoptDispatch(m: nat, d: nat, c: Choice, ghost me: nat) returns (r: Option<Outcome>)
      requires Valid() && At(me, m, Adopting(d)) && d < |table|
      modifies this
      ensures Valid() && old(log) <= log && At(me, m, PhaseOfAnswer(r))
    {
      Others(me);
      ghost var before := State();
      if m !in rows {
        var row := LegacyRow(m, table[d].target, 0, c.now);
        rows := rows[m := row];
        Record(Proceed(me, c), before);
        r := ReplayStored(m, row, c, me);
      } else {
        Record(Proceed(me, c), before);
        Others(me);
        var row := if m in rows && CompatibleLegacy(rows[m], table[d]) then Some(rows[m]) else None;
        Record(Proceed(me, c), State());
        if row.Some? { r := ReplayStored(m, row.value, c, me); } else { r := None; }
      }
    }

    /** Gives the claim back, if it is still held, and lets the error through. */
    method ReleaseClaim(m: nat, token: Token, c: Choice, ghost me: nat) returns (r: Option<Outcome>)
      requires Valid() && At(me, m, Releasing(token))
      modifies this
      ensures Valid() && old(log) <= log && At(me, m, Failed) && r.None?
    {
      Others(me);
      ghost var before := State();
      if m in rows && rows[m].state.Pending? && rows[m].token == Some(token) {
        rows := rows[m := rows[m].(token := None, lease := None, lastError := Some(ERROR_CODE))];
      } else {
        assert m in rows ==> rows[m := rows[m]] == rows;
      }
      Record(Proceed(me, c), before);
      r := None;
    }

    /** Answers from a completed outcome; an admitted message without its dispatch gets it now. */
    method ReplayStored(m: nat, row: Row, c: Choice, ghost me: nat) returns (r: Option<Outcome>)
      requires Valid() && At(me, m, Replaying(row))
      modifies this
      ensures Valid() && old(log) <= log && At(me, m, PhaseOfAnswer(r))
    {
      Others(me);
      var admission := ToAdmissionOutcome(row);
      var dispatch := FindDispatch(table, m);
      var target := if dispatch.Some? then Some(table[dispatch.value].target) else None;
      Record(Proceed(me, c), State());
      if admission.None? { return None; }
      var o := admission.value;
      if !o.admitted {
        r := if dispatch.Some? then None else Some(o);
      } else if dispatch.Some? {
        r := if target == TargetOf(o.identity, o.workspace, o.thread) then Some(o) else None;
      } else {
        r := RepairDispatch(m, o, c, me);
      }
    }

    method RepairDispatch(m: nat, o: Outcome, c: Choice, ghost me: nat) returns (r: Option<Outcome>)
      requires Valid() && At(me, m, Repairing(o))
      modifies this
      ensures Valid() && old(log) <= log && At(me, m, PhaseOfAnswer(r))
    {
      Others(me);
      ghost var before := State();
      var target := TargetOf(o.identity, o.workspace, o.thread);
      r := None;
      if target.Some? {
        match Queue.Enqueue(table, m, target.value, c.now)
        case TargetConflict(_) =>
        case Existing(_) => r := Some(o);
        case Inserted(t) =>
          table := t;
          r := Some(o);
      }
      Record(Proceed(me, c), before);
    }
  }
}
