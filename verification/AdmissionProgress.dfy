/** What becomes of a message that is delivered and not disturbed, in every state its row can be in. */
module AdmissionProgress {
  import opened Basics
  import Queue = DispatchQueue
  import opened AdmissionOutcomes
  import opened AdmissionPolicy
  import opened AdmissionProtocol
  import opened AdmissionInvariant
  import opened AdmissionTheorems
  import opened AdmissionClearance

  /** Delivery `k` takes this many statements and nobody else does anything. */
  function Alone(w: World, k: nat, c: Choice, steps: nat): World {
    Repeat(Mover(k, c), w, steps)
  }

  function Mover(k: nat, c: Choice): World -> World {
    (w: World) => Advance(w, k, c)
  }

  function Repeat(f: World -> World, w: World, n: nat): World
    decreases n
  {
    if n == 0 then w else Repeat(f, f(w), n - 1)
  }

  lemma {:induction false} RepeatAppend(f: World -> World, w: World, a: nat, b: nat)
    ensures Repeat(f, w, a + b) == Repeat(f, Repeat(f, w, a), b)
    decreases a
  {
    if a > 0 { RepeatAppend(f, f(w), a - 1, b); }
  }

  lemma AloneAppend(w: World, k: nat, c: Choice, a: nat, b: nat)
    ensures Alone(w, k, c, a + b) == Alone(Alone(w, k, c, a), k, c, b)
  {
    RepeatAppend(Mover(k, c), w, a, b);
  }

  predicate At(w: World, k: nat, m: nat, phase: Phase) {
    k < |w.processes| && w.processes[k] == Process(m, phase)
  }

  /** The delivery holds the claim of its message and has read the frozen request. */
  ghost predicate Holding(w: World, k: nat, m: nat, token: Token, facts: RequestFacts) {
    && Inv(w) && At(w, k, m, Claimed(token, Some(facts))) && m in w.rows && w.rows[m].state.Pending?
    && w.rows[m].token == Some(token)
  }

  /** Only the delivery's own message was touched. */
  ghost predicate OnlyTouches(w: World, w': World, m: nat) {
    w'.rows.Keys == w.rows.Keys + {m} && forall n :: n in w.rows && n != m ==> w'.rows[n] == w.rows[n]
  }

  function NewDispatch(m: nat, e: Environment, now: Time): Queue.Dispatch
    requires e.identity.id.Some?
  {
    Queue.Dispatch(m, Queue.Target(e.identity.id.value, e.workspace, e.thread), Queue.Queued, 0, false, None, None, now,
      None)
  }

  /** The message is admitted: its outcome is stored and its dispatch waits at the end of the queue. */
  ghost predicate EndsAdmitted(w: World, w': World, k: nat, m: nat, c: Candidate, e: Environment, now: Time) {
    && k < |w'.processes| && w'.processes[k].phase.Finished? && Admits(c, e, w'.processes[k].phase.result)
    && HoldsOutcome(w'.rows, m, w'.processes[k].phase.result)
    && e.identity.id.Some? && w'.table == w.table + [NewDispatch(m, e, now)]
  }

  /** The message is denied at this hurdle: its outcome is stored and there is no dispatch. */
  ghost predicate EndsDenied(w: World, w': World, k: nat, m: nat, c: Candidate, e: Environment, h: Hurdle) {
    && k < |w'.processes| && w'.processes[k].phase.Finished? && Denies(c, e, h, w'.processes[k].phase.result)
    && HoldsOutcome(w'.rows, m, w'.processes[k].phase.result) && w'.table == w.table
  }

  /** The evaluation raised: the claim is free again and nothing is decided. */
  ghost predicate EndsOpen(w: World, w': World, k: nat, m: nat) {
    && At(w', k, m, Failed) && w'.table == w.table
    && m in w'.rows && w'.rows[m].state.Pending? && w'.rows[m].token.None? && w'.rows[m].lastError == Some(ERROR_CODE)
  }

  /** A bound message needs a workspace and a thread with a name. */
  predicate Placed(e: Environment) {
    e.workspace != "" && e.thread != ""
  }

  ghost predicate Concluded(w: World, w': World, k: nat, m: nat, c: Candidate, e: Environment, now: Time) {
    && (ClearsAll(c, e) && Placed(e) ==> EndsAdmitted(w, w', k, m, c, e, now))
    && (ClearsAll(c, e) && !Placed(e) ==> EndsOpen(w, w', k, m))
    && (FailsFirst(c, e, RouteGiven) && e.routing.Fails? ==> EndsOpen(w, w', k, m))
    && (forall h :: FailsFirst(c, e, h) && !(h.RouteGiven? && e.routing.Fails?) ==> EndsDenied(w, w', k, m, c, e, h))
  }

  lemma ClaimEvaluates(w: World, k: nat, m: nat, token: Token, facts: RequestFacts, c: Choice)
    requires Holding(w, k, m, token, facts)
    ensures FindDispatch(w.table, m).None?
    ensures Alone(w, k, c, 2) == AtPhase(w, k, Evaluate(m, token, facts, c))
  {
    FindDispatchIff(w.table, m);
    var w1 := Advance(w, k, c);
    assert w1 == AtPhase(w, k, Evaluating(token, facts));
    assert Advance(w1, k, c).processes == AtPhase(w, k, Evaluate(m, token, facts, c)).processes;
    TwoSteps(w, k, c, w1, Advance(w1, k, c));
  }

  lemma AllowCommits(w: World, k: nat, m: nat, token: Token, o: Outcome, now: Time)
    requires Inv(w) && At(w, k, m, Allowing(token, o)) && m in w.rows && w.rows[m].state.Pending?
    requires w.rows[m].token == Some(token) && FindDispatch(w.table, m).None?
    ensures var w' := Allow(w, k, token, o, now);
      if Present(o.workspace) && Present(o.thread) then
        && At(w', k, m, Finished(o)) && HoldsOutcome(w'.rows, m, o) && OnlyTouches(w, w', m)
        && o.identity.Some?
        && w'.table == w.table + [Queue.Dispatch(m, Queue.Target(o.identity.value, o.workspace.value, o.thread.value),
             Queue.Queued, 0, false, None, None, now, None)]
      else w' == AtPhase(w, k, Releasing(token))
  {
    PhaseOkOf(w, k);
    var staged := StageCompletion(w.rows[m], token, o, now);
    if staged.Some? { StagedIsSound(m, w.rows[m], token, o, now); }
  }

  lemma DenyCommits(w: World, k: nat, m: nat, token: Token, o: Outcome, now: Time)
    requires Inv(w) && At(w, k, m, DenyCommit(token, o)) && m in w.rows && w.rows[m].state.Pending?
    requires w.rows[m].token == Some(token)
    ensures var w' := Deny(w, k, token, o, now);
      At(w', k, m, Finished(o)) && HoldsOutcome(w'.rows, m, o) && OnlyTouches(w, w', m) && w'.table == w.table
  {
    PhaseOkOf(w, k);
    StagedIsSound(m, w.rows[m], token, o, now);
  }

  lemma ReleaseFrees(w: World, k: nat, m: nat, token: Token)
    requires At(w, k, m, Releasing(token)) && m in w.rows && w.rows[m].state.Pending? && w.rows[m].token == Some(token)
    ensures var w' := Release(w, k, token); EndsOpen(w, w', k, m) && OnlyTouches(w, w', m)
  {
  }

  lemma EndedStays(w: World, k: nat, c: Choice, steps: nat)
    requires k < |w.processes| && (w.processes[k].phase.Finished? || w.processes[k].phase.Failed?)
    ensures Alone(w, k, c, steps) == w
    decreases steps
  {
    if steps > 0 {
      assert Advance(w, k, c).processes == w.processes;
      assert Mover(k, c)(w) == Advance(w, k, c) == w;
      EndedStays(w, k, c, steps - 1);
    }
  }

  // ----- From a claim to the answer -----

  lemma TwoSteps(w: World, k: nat, c: Choice, w1: World, w2: World)
    requires Advance(w, k, c) == w1 && Advance(w1, k, c) == w2
    ensures Alone(w, k, c, 2) == w2
  {
    AloneAppend(w, k, c, 1, 1);
    OneMore(w, k, c);
    OneMore(w1, k, c);
  }

  lemma OneMore(w: World, k: nat, c: Choice)
    ensures Alone(w, k, c, 1) == Advance(w, k, c)
  {
    assert Mover(k, c)(w) == Advance(w, k, c);
  }

  lemma AllowStays(w: World, k: nat, m: nat, token: Token, o: Outcome, c: Choice, w1: World)
    requires At(w, k, m, Allowing(token, o)) && w1 == Allow(w, k, token, o, c.now) && At(w1, k, m, Finished(o))
    ensures Alone(w, k, c, 2) == w1
  {
    OneMore(w, k, c);
    AloneAppend(w, k, c, 1, 1);
    EndedStays(w1, k, c, 1);
  }

  lemma AllowReleases(w: World, k: nat, m: nat, token: Token, o: Outcome, c: Choice, w1: World)
    requires At(w, k, m, Allowing(token, o)) && w1 == Allow(w, k, token, o, c.now)
      && w1 == AtPhase(w, k, Releasing(token))
    ensures Alone(w, k, c, 2) == Release(w1, k, token)
  {
    TwoSteps(w, k, c, w1, Release(w1, k, token));
  }

  lemma AdmittedEnds(w: World, k: nat, m: nat, token: Token, o: Outcome, c: Choice, seen: Candidate)
    requires Inv(w) && At(w, k, m, Allowing(token, o)) && m in w.rows && w.rows[m].state.Pending?
    requires w.rows[m].token == Some(token) && FindDispatch(w.table, m).None? && Admits(seen, c.environment, o)
    ensures var w' := Alone(w, k, c, 2);
      && OnlyTouches(w, w', m)
      && (if Placed(c.environment) then EndsAdmitted(w, w', k, m, seen, c.environment, c.now)
            else EndsOpen(w, w', k, m))
  {
    AllowCommits(w, k, m, token, o, c.now);
    var w1 := Allow(w, k, token, o, c.now);
    if Placed(c.environment) {
      AllowStays(w, k, m, token, o, c, w1);
    } else {
      ReleaseFrees(w1, k, m, token);
      AllowReleases(w, k, m, token, o, c, w1);
    }
  }

  lemma DenyLooks(w: World, k: nat, m: nat, token: Token, o: Outcome, c: Choice, w1: World)
    requires Inv(w) && At(w, k, m, Denying(token, o)) && FindDispatch(w.table, m).None?
    requires w1 == AtPhase(w, k, DenyCommit(token, o))
    ensures Inv(w1) && Alone(w, k, c, 2) == Deny(w1, k, token, o, c.now)
  {
    PhaseOkOf(w, k);
    MoveKeeps(w, k, DenyCommit(token, o));
    TwoSteps(w, k, c, w1, Deny(w1, k, token, o, c.now));
  }

  lemma DeniedEnds(w: World, k: nat, m: nat, token: Token, o: Outcome, c: Choice, seen: Candidate, h: Hurdle)
    requires Inv(w) && At(w, k, m, Denying(token, o)) && m in w.rows && w.rows[m].state.Pending?
    requires w.rows[m].token == Some(token) && FindDispatch(w.table, m).None? && Denies(seen, c.environment, h, o)
    ensures var w' := Alone(w, k, c, 2); OnlyTouches(w, w', m) && EndsDenied(w, w', k, m, seen, c.environment, h)
  {
    var w1 := AtPhase(w, k, DenyCommit(token, o));
    DenyLooks(w, k, m, token, o, c, w1);
    DenyCommits(w1, k, m, token, o, c.now);
  }

  lemma RaisedEnds(w: World, k: nat, m: nat, token: Token, c: Choice)
    requires At(w, k, m, Releasing(token)) && m in w.rows && w.rows[m].state.Pending? && w.rows[m].token == Some(token)
    ensures var w' := Alone(w, k, c, 2); OnlyTouches(w, w', m) && EndsOpen(w, w', k, m)
  {
    ReleaseFrees(w, k, m, token);
    OneMore(w, k, c);
    AloneAppend(w, k, c, 1, 1);
    EndedStays(Advance(w, k, c), k, c, 1);
  }

  /** The evaluation of a held claim is carried out in two statements, and the end is what the policy says. */
  lemma EvaluationEnds(w: World, k: nat, m: nat, token: Token, facts: RequestFacts, c: Choice, seen: Candidate,
                       w2: World)
    requires Holding(w, k, m, token, facts) && FindDispatch(w.table, m).None?
    requires seen == c.candidate.(message := m, request := facts) && w2 == AtPhase(w, k, Evaluate(m, token, facts, c))
    ensures var w' := Alone(w2, k, c, 2); OnlyTouches(w2, w', m) && Concluded(w2, w', k, m, seen, c.environment, c.now)
  {
    var e := c.environment;
    EvaluationKeeps(w, k, m, token, facts, c);
    AdmittedIff(seen, e);
    RaisesIff(seen, e);
    if Admit(seen, e).None? {
      RaisedEnds(w2, k, m, token, c);
      OnlyRoute(seen, e);
    } else if Admit(seen, e).value.admitted {
      AdmittedEnds(w2, k, m, token, Admit(seen, e).value, c, seen);
      NoneFails(seen, e);
    } else {
      DenialEnds(w2, k, m, token, c, seen);
    }
  }

  lemma DenialEnds(w: World, k: nat, m: nat, token: Token, c: Choice, seen: Candidate)
    requires Inv(w) && Admit(seen, c.environment).Some? && !Admit(seen, c.environment).value.admitted
    requires At(w, k, m, Denying(token, Admit(seen, c.environment).value)) && m in w.rows && w.rows[m].state.Pending?
    requires w.rows[m].token == Some(token) && FindDispatch(w.table, m).None?
    ensures var w' := Alone(w, k, c, 2); OnlyTouches(w, w', m) && Concluded(w, w', k, m, seen, c.environment, c.now)
  {
    var e, o := c.environment, Admit(seen, c.environment).value;
    var w' := Alone(w, k, c, 2);
    AdmittedIff(seen, e);
    RaisesIff(seen, e);
    forall h | FailsFirst(seen, e, h) ensures OnlyTouches(w, w', m) && EndsDenied(w, w', k, m, seen, e, h) {
      DeniedAtFirst(seen, e, h);
      DeniedEnds(w, k, m, token, o, c, seen, h);
    }
    var h :| !Clears(seen, e, h);
    SomeHurdleFails(seen, e, h);
  }

  /** A held claim is carried to its end in four statements. */
  lemma ClaimIsDecided(w: World, k: nat, m: nat, token: Token, facts: RequestFacts, c: Choice)
    requires Holding(w, k, m, token, facts)
    ensures var w', seen := Alone(w, k, c, 4), c.candidate.(message := m, request := facts);
      OnlyTouches(w, w', m) && Concluded(w, w', k, m, seen, c.environment, c.now)
  {
    var seen := c.candidate.(message := m, request := facts);
    ClaimEvaluates(w, k, m, token, facts, c);
    AloneAppend(w, k, c, 2, 2);
    var w2 := AtPhase(w, k, Evaluate(m, token, facts, c));
    EvaluationEnds(w, k, m, token, facts, c, seen, w2);
    Onward(w, w2, Alone(w2, k, c, 2), k, m, seen, c.environment, c.now);
  }

  lemma EvaluationKeeps(w: World, k: nat, m: nat, token: Token, facts: RequestFacts, c: Choice)
    requires Holding(w, k, m, token, facts)
    ensures Inv(AtPhase(w, k, Evaluate(m, token, facts, c)))
  {
    PhaseOkOf(w, k);
    EvaluateIsSound(w.rows, w.table, w.used, m, token, facts, c);
    MoveKeeps(w, k, Evaluate(m, token, facts, c));
  }

  /** At most one hurdle is the first to fail. */
  lemma OnlyRoute(c: Candidate, e: Environment)
    requires FailsFirst(c, e, RouteGiven)
    ensures forall h :: FailsFirst(c, e, h) ==> h.RouteGiven?
    ensures !ClearsAll(c, e)
  {
    forall h | FailsFirst(c, e, h) ensures h.RouteGiven? {
      assert Rank(h) < Rank(RouteGiven) ==> Clears(c, e, h);
    }
  }

  lemma NoneFails(c: Candidate, e: Environment)
    requires ClearsAll(c, e)
    ensures forall h :: !FailsFirst(c, e, h)
  {
  }

  // ----- A delivery, by the state of its row -----

  /** A message that has not been seen before is claimed with its own request and decided. */
  lemma NewMessageIsDecided(w: World, m: nat, c: Choice)
    requires Inv(w) && m !in w.rows && c.token !in w.used
    ensures var w0, k := Step(w, Deliver(m)), |w.processes|;
      var w' := Alone(w0, k, c, 7);
      OnlyTouches(w, w', m)
        && Concluded(w, w', k, m, c.candidate.(message := m, request := c.request), c.environment, c.now)
  {
    var w0, k := Step(w, Deliver(m)), |w.processes|;
    StepKeeps(w, Deliver(m));
    FirstClaim(w0, k, m, c);
    AloneAppend(w0, k, c, 3, 4);
    var w3 := Alone(w0, k, c, 3);
    ClaimIsDecided(w3, k, m, c.token, c.request, c);
    Onward(w, w3, Alone(w3, k, c, 4), k, m, c.candidate.(message := m, request := c.request), c.environment, c.now);
  }

  lemma FirstClaim(w: World, k: nat, m: nat, c: Choice)
    requires Inv(w) && At(w, k, m, Start) && m !in w.rows && c.token !in w.used
    ensures Holding(Alone(w, k, c, 3), k, m, c.token, c.request)
    ensures OnlyTouches(w, Alone(w, k, c, 3), m) && Alone(w, k, c, 3).table == w.table
  {
    FindDispatchIff(w.table, m);
    var w1 := AtPhase(w, k, SawOutcome(false));
    var w2 := AtPhase(w1, k, Creating);
    MoveKeeps(w, k, SawOutcome(false));
    MoveKeeps(w1, k, Creating);
    LooksForNew(w, k, m, c, w2);
    FirstClaimIsTimed(w2, k, m, c);
    OneMore(w2, k, c);
    AloneAppend(w, k, c, 2, 1);
  }

  lemma LooksForNew(w: World, k: nat, m: nat, c: Choice, w2: World)
    requires At(w, k, m, Start) && m !in w.rows && FindDispatch(w.table, m).None?
    requires w2 == AtPhase(AtPhase(w, k, SawOutcome(false)), k, Creating)
    ensures Alone(w, k, c, 2) == w2
  {
    TwoSteps(w, k, c, AtPhase(w, k, SawOutcome(false)), w2);
  }

  lemma ThreeSteps(w: World, k: nat, c: Choice)
    ensures Alone(w, k, c, 3) == Advance(Advance(Advance(w, k, c), k, c), k, c)
  {
    var w1 := Advance(w, k, c);
    AloneAppend(w, k, c, 1, 2);
    AloneAppend(w1, k, c, 1, 1);
    OneMore(w, k, c);
    OneMore(w1, k, c);
    OneMore(Advance(w1, k, c), k, c);
  }

  /** What is concluded from a claim is concluded from the state before it. */
  lemma Onward(w: World, w1: World, w': World, k: nat, m: nat, c: Candidate, e: Environment, now: Time)
    requires w1.table == w.table && OnlyTouches(w, w1, m) && OnlyTouches(w1, w', m)
      && Concluded(w1, w', k, m, c, e, now)
    ensures OnlyTouches(w, w', m) && Concluded(w, w', k, m, c, e, now)
  {
  }

  /** Somebody's claim of the row still runs at this time. */
  predicate LeasedAt(r: Row, now: Time) {
    r.token.Some? && r.lease.Some? && now < r.lease.value
  }

  /** A pending message that is free, or whose lease has run out, is claimed again and decided on its first request. */
  lemma PendingMessageIsDecided(w: World, m: nat, c: Choice)
    requires Inv(w) && m in w.rows && w.rows[m].state.Pending? && !LeasedAt(w.rows[m], c.now) && c.token !in w.used
    ensures RequestOf(w.rows[m]).Some?
    ensures var w0, k := Step(w, Deliver(m)), |w.processes|;
      var w' := Alone(w0, k, c, 8);
      && OnlyTouches(w, w', m)
      && Concluded(w, w', k, m, c.candidate.(message := m, request := RequestOf(w.rows[m]).value), c.environment, c.now)
  {
    var w0, k := Step(w, Deliver(m)), |w.processes|;
    assert RowOk(m, w.rows[m]) && CanClaim(w.rows[m], c.now);
    StepKeeps(w, Deliver(m));
    NextClaim(w0, k, m, c);
    AloneAppend(w0, k, c, 4, 4);
    var w4, facts := Alone(w0, k, c, 4), RequestOf(w.rows[m]).value;
    ClaimIsDecided(w4, k, m, c.token, facts, c);
    Onward(w, w4, Alone(w4, k, c, 4), k, m, c.candidate.(message := m, request := facts), c.environment, c.now);
  }

  lemma NextClaim(w: World, k: nat, m: nat, c: Choice)
    requires Inv(w) && At(w, k, m, Start) && m in w.rows && CanClaim(w.rows[m], c.now) && c.token !in w.used
    requires RequestOf(w.rows[m]).Some?
    ensures Holding(Alone(w, k, c, 4), k, m, c.token, RequestOf(w.rows[m]).value)
    ensures OnlyTouches(w, Alone(w, k, c, 4), m) && Alone(w, k, c, 4).table == w.table
  {
    var w1 := Advance(w, k, c);
    assert w1 == AtPhase(w, k, SawOutcome(true));
    AdvanceKeeps(w, k, c, Advance(w, k, c));
    var w2 := Advance(w1, k, c);
    assert w2 == AtPhase(w1, k, Claiming);
    AdvanceKeeps(w1, k, c, Advance(w1, k, c));
    var w3 := Advance(w2, k, c);
    AdvanceKeeps(w2, k, c, Advance(w2, k, c));
    ReadBack(w2, k, m, c, w3);
    ThreeSteps(w, k, c);
    AloneAppend(w, k, c, 3, 1);
    OneMore(w3, k, c);
    AdvanceKeeps(w3, k, c, Advance(w3, k, c));
  }

  lemma ReadBack(w: World, k: nat, m: nat, c: Choice, w': World)
    requires Inv(w) && At(w, k, m, Claiming) && m in w.rows && CanClaim(w.rows[m], c.now) && c.token !in w.used
    requires w' == Advance(w, k, c) && RequestOf(w.rows[m]).Some?
    ensures At(w', k, m, GotToken(c.token)) && w'.rows == w.rows[m := ClaimRow(w.rows[m], c.token, c.now + c.lease)]
    ensures w'.table == w.table && RequestOf(w'.rows[m]) == RequestOf(w.rows[m])
    ensures Advance(w', k, c) == AtPhase(w', k, Claimed(c.token, RequestOf(w.rows[m])))
  {
  }

  /** A pending message that another delivery holds is left alone. */
  lemma HeldMessageIsBusy(w: World, m: nat, c: Choice)
    requires Inv(w) && m in w.rows && w.rows[m].state.Pending? && LeasedAt(w.rows[m], c.now) && c.token !in w.used
    ensures var w0, k := Step(w, Deliver(m)), |w.processes|;
      var w' := Alone(w0, k, c, 4);
      At(w', k, m, Failed) && w'.rows == w.rows && w'.table == w.table
  {
    var w0, k := Step(w, Deliver(m)), |w.processes|;
    var w2 := AtPhase(AtPhase(w0, k, SawOutcome(true)), k, Claiming);
    var w3 := AtPhase(w2, k, ClaimLost);
    LooksForClaim(w0, k, m, c, w2);
    LosesClaim(w2, k, m, c, w3);
    AloneAppend(w0, k, c, 2, 2);
  }

  lemma LooksForClaim(w: World, k: nat, m: nat, c: Choice, w2: World)
    requires At(w, k, m, Start) && m in w.rows && w.rows[m].state.Pending?
    requires w2 == AtPhase(AtPhase(w, k, SawOutcome(true)), k, Claiming)
    ensures Alone(w, k, c, 2) == w2
  {
    TwoSteps(w, k, c, AtPhase(w, k, SawOutcome(true)), w2);
  }

  lemma LosesClaim(w: World, k: nat, m: nat, c: Choice, w1: World)
    requires At(w, k, m, Claiming) && m in w.rows && w.rows[m].state.Pending? && !CanClaim(w.rows[m], c.now)
    requires c.token !in w.used && w1 == AtPhase(w, k, ClaimLost)
    ensures Alone(w, k, c, 2) == AtPhase(w1, k, Failed)
  {
    TwoSteps(w, k, c, w1, AtPhase(w1, k, Failed));
  }

  /** A decided message is answered from its row, without another evaluation and without another dispatch. */
  lemma DecidedMessageIsAnswered(w: World, m: nat, c: Choice)
    requires Inv(w) && m in w.rows && w.rows[m].state.Completed?
    ensures ToAdmissionOutcome(w.rows[m]).Some?
    ensures var w0, k := Step(w, Deliver(m)), |w.processes|;
      var w' := Alone(w0, k, c, 2);
      At(w', k, m, Finished(ToAdmissionOutcome(w.rows[m]).value)) && w'.rows == w.rows && w'.table == w.table
  {
    var w0, k := Step(w, Deliver(m)), |w.processes|;
    ReplayFinishes(w, m);
    Replays(w0, k, m, c, AtPhase(w0, k, Replaying(w.rows[m])));
  }

  lemma Replays(w: World, k: nat, m: nat, c: Choice, w1: World)
    requires At(w, k, m, Start) && m in w.rows && w.rows[m].state.Completed?
      && w1 == AtPhase(w, k, Replaying(w.rows[m]))
    ensures Alone(w, k, c, 2) == AtPhase(w1, k, Replay(w.table, m, w.rows[m]))
  {
    TwoSteps(w, k, c, w1, AtPhase(w1, k, Replay(w.table, m, w.rows[m])));
  }

  // ----- A claim lasts as long as its lease -----

  /** Delivery `k` holds the claim of the message until this time. */
  ghost predicate HeldUntil(w: World, k: nat, m: nat, token: Token, until: Time) {
    && Inv(w) && k < |w.processes| && w.processes[k].message == m && TokenOf(w.processes[k].phase) == Some(token)
    && m in w.rows && w.rows[m].state.Pending? && w.rows[m].token == Some(token) && w.rows[m].lease == Some(until)
  }

  /**
   Whoever is granted a claim at `now` holds it until `now + lease`: the first claim of a message, and every later one.
   */
  lemma FirstClaimIsTimed(w: World, k: nat, m: nat, c: Choice)
    requires Inv(w) && c.token !in w.used && At(w, k, m, Creating) && m !in w.rows
    ensures HeldUntil(Create(w, k, c), k, m, c.token, c.now + c.lease) && Advance(w, k, c) == Create(w, k, c)
  {
    CreateKeeps(w, k, c, Create(w, k, c));
  }

  lemma LaterClaimIsTimed(w: World, k: nat, m: nat, c: Choice)
    requires Inv(w) && c.token !in w.used && At(w, k, m, Claiming) && m in w.rows && CanClaim(w.rows[m], c.now)
    ensures HeldUntil(Claim(w, k, c), k, m, c.token, c.now + c.lease) && Advance(w, k, c) == Claim(w, k, c)
  {
    ClaimKeeps(w, k, c, Claim(w, k, c));
  }

  /** A statement of another delivery, before the lease runs out. */
  predicate Early(act: Action, k: nat, until: Time) {
    act.Proceed? ==> act.process != k && act.choice.now < until
  }

  lemma OthersLeaveClaim(w: World, act: Action, k: nat, m: nat, token: Token, until: Time)
    requires HeldUntil(w, k, m, token, until) && Early(act, k, until)
    ensures HeldUntil(Step(w, act), k, m, token, until) && Step(w, act).rows[m] == w.rows[m]
    ensures Step(w, act).processes[k] == w.processes[k]
  {
    StepKeeps(w, act);
    if act.Proceed? && act.process < |w.processes| {
      OthersLeaveRow(w, act.process, act.choice, k, m, token, until, Step(w, act));
      ProcessesStay(w, act.process, act.choice, Step(w, act));
    }
  }

  lemma OthersLeaveRow(w: World, j: nat, c: Choice, k: nat, m: nat, token: Token, until: Time, w': World)
    requires HeldUntil(w, k, m, token, until) && j < |w.processes| && j != k && c.now < until && w' == Advance(w, j, c)
    ensures m in w'.rows && w'.rows[m] == w.rows[m]
  {
    var e := AdvanceEffect(w, j, c, w');
  }

  /** Until its lease runs out a claim is left to its holder, whatever other deliveries, workers and operators do. */
  lemma {:induction false} LeaseIsHonoured(w: World, acts: seq<Action>, k: nat, m: nat, token: Token, until: Time)
    requires HeldUntil(w, k, m, token, until) && forall i: nat :: i < |acts| ==> Early(acts[i], k, until)
    ensures HeldUntil(Run(w, acts), k, m, token, until) && Run(w, acts).rows[m] == w.rows[m]
    decreases |acts|
  {
    if acts != [] {
      OthersLeaveClaim(w, acts[0], k, m, token, until);
      LeaseIsHonoured(Step(w, acts[0]), acts[1..], k, m, token, until);
    }
  }

  // ----- Dispatches that are older than their outcome -----

  /** The message is answered as admitted to where its dispatch goes, and that is stored. */
  ghost predicate EndsAdopted(w: World, w': World, k: nat, m: nat, t: Queue.Target) {
    && k < |w'.processes| && w'.processes[k].phase.Finished? && w'.table == w.table && OnlyTouches(w, w', m)
    && HoldsOutcome(w'.rows, m, w'.processes[k].phase.result) && w'.rows[m].origin.LegacyDispatch?
    && var o := w'.processes[k].phase.result;
    o.message == m && o.admitted && TargetOf(o.identity, o.workspace, o.thread) == Some(t)
  }

  /** A dispatch without an outcome gets one from its own target, without an evaluation. */
  lemma LegacyDispatchIsAdopted(w: World, m: nat, d: nat, c: Choice)
    requires m !in w.rows && FindDispatch(w.table, m) == Some(d) && d < |w.table|
    ensures var w0, k := Step(w, Deliver(m)), |w.processes|;
      EndsAdopted(w, Alone(w0, k, c, 4), k, m, w.table[d].target)
  {
    var w0, k := Step(w, Deliver(m)), |w.processes|;
    var w2 := AtPhase(AtPhase(w0, k, SawOutcome(false)), k, Adopting(d));
    LooksForLegacy(w0, k, m, d, c, w2);
    var row := LegacyRow(m, w.table[d].target, 0, c.now);
    var w3 := WithRow(w2, k, row, Replaying(row));
    LegacyReplays(w.table, m, d, row);
    AdoptsAndReplays(w2, k, m, d, c, w3);
    AloneAppend(w0, k, c, 2, 2);
  }

  lemma LooksForLegacy(w: World, k: nat, m: nat, d: nat, c: Choice, w2: World)
    requires At(w, k, m, Start) && m !in w.rows && FindDispatch(w.table, m) == Some(d)
    requires w2 == AtPhase(AtPhase(w, k, SawOutcome(false)), k, Adopting(d))
    ensures Alone(w, k, c, 2) == w2
  {
    TwoSteps(w, k, c, AtPhase(w, k, SawOutcome(false)), w2);
  }

  lemma LegacyReplays(table: Queue.Table, m: nat, d: nat, row: Row)
    requires FindDispatch(table, m) == Some(d) && d < |table| && row.origin.LegacyDispatch?
    requires row.completedAt.Some? && row == LegacyRow(m, table[d].target, row.attempts, row.completedAt.value)
    ensures Replay(table, m, row).Finished? && ToAdmissionOutcome(row) == Some(Replay(table, m, row).result)
    ensures var o := Replay(table, m, row).result;
      o.message == m && o.admitted && TargetOf(o.identity, o.workspace, o.thread) == Some(table[d].target)
  {
    ReasonRoundTrip(ReasonAllowed);
  }

  lemma AdoptsAndReplays(w: World, k: nat, m: nat, d: nat, c: Choice, w1: World)
    requires At(w, k, m, Adopting(d)) && m !in w.rows && d < |w.table|
    requires var row := LegacyRow(m, w.table[d].target, 0, c.now); w1 == WithRow(w, k, row, Replaying(row))
    ensures Alone(w, k, c, 2) == AtPhase(w1, k, Replay(w.table, m, LegacyRow(m, w.table[d].target, 0, c.now)))
  {
    TwoSteps(w, k, c, w1, AtPhase(w1, k, Replay(w.table, m, LegacyRow(m, w.table[d].target, 0, c.now))));
  }

  /** A claim that meets a dispatch of its message is closed with the outcome the dispatch implies. */
  lemma DispatchSettlesClaim(w: World, k: nat, m: nat, d: nat, token: Token, facts: Option<RequestFacts>, c: Choice)
    requires At(w, k, m, Claimed(token, facts)) && m in w.rows && w.rows[m].state.Pending?
    requires w.rows[m].token == Some(token) && FindDispatch(w.table, m) == Some(d) && d < |w.table|
    ensures EndsAdopted(w, Alone(w, k, c, 3), k, m, w.table[d].target)
  {
    var w1, row := AtPhase(w, k, LegacyClosing(token, d)), LegacyRow(m, w.table[d].target, w.rows[m].attempts, c.now);
    LegacyReplays(w.table, m, d, row);
    ClosesAndReplays(w1, k, m, d, token, c, WithRow(w1, k, row, Replaying(row)));
    MeetsDispatch(w, k, m, d, token, facts, c, w1);
    AloneAppend(w, k, c, 1, 2);
  }

  lemma MeetsDispatch(w: World, k: nat, m: nat, d: nat, token: Token, facts: Option<RequestFacts>, c: Choice, w1: World)
    requires At(w, k, m, Claimed(token, facts)) && FindDispatch(w.table, m) == Some(d)
    requires w1 == AtPhase(w, k, LegacyClosing(token, d))
    ensures Alone(w, k, c, 1) == w1
  {
    OneMore(w, k, c);
  }

  lemma ClosesAndReplays(w: World, k: nat, m: nat, d: nat, token: Token, c: Choice, w1: World)
    requires At(w, k, m, LegacyClosing(token, d)) && m in w.rows && w.rows[m].state.Pending?
    requires w.rows[m].token == Some(token) && d < |w.table|
    requires var row := LegacyRow(m, w.table[d].target, w.rows[m].attempts, c.now);
      w1 == WithRow(w, k, row, Replaying(row))
    ensures Alone(w, k, c, 2)
      == AtPhase(w1, k, Replay(w.table, m, LegacyRow(m, w.table[d].target, w.rows[m].attempts, c.now)))
  {
    TwoSteps(w, k, c, w1,
      AtPhase(w1, k, Replay(w.table, m, LegacyRow(m, w.table[d].target, w.rows[m].attempts, c.now))));
  }

  // ----- Losers of a race, and lost dispatches -----

  /** A delivery that lost its claim to one that has answered gives the same answer. */
  lemma LoserIsAnswered(w: World, k: nat, m: nat, c: Choice, lost: Phase)
    requires Inv(w) && At(w, k, m, lost) && (lost == ClaimLost || lost == CreateLost)
    requires m in w.rows && w.rows[m].state.Completed?
    ensures ToAdmissionOutcome(w.rows[m]).Some?
    ensures var w' := Alone(w, k, c, 2);
      At(w', k, m, Finished(ToAdmissionOutcome(w.rows[m]).value)) && w'.rows == w.rows && w'.table == w.table
  {
    ReplayFinishes(w, m);
    LoserReplays(w, k, m, c, lost, AtPhase(w, k, Replaying(w.rows[m])));
  }

  lemma LoserReplays(w: World, k: nat, m: nat, c: Choice, lost: Phase, w1: World)
    requires At(w, k, m, lost) && (lost == ClaimLost || lost == CreateLost) && m in w.rows && w.rows[m].state.Completed?
    requires w1 == AtPhase(w, k, Replaying(w.rows[m]))
    ensures Alone(w, k, c, 2) == AtPhase(w1, k, Replay(w.table, m, w.rows[m]))
  {
    TwoSteps(w, k, c, w1, AtPhase(w1, k, Replay(w.table, m, w.rows[m])));
  }

  /** A delivery whose insert came second takes the pending row over as soon as it is free, and decides it. */
  lemma LateCreatorDecides(w: World, k: nat, m: nat, c: Choice)
    requires Inv(w) && At(w, k, m, CreateLost) && m in w.rows && w.rows[m].state.Pending? && !LeasedAt(w.rows[m], c.now)
    requires c.token !in w.used
    ensures RequestOf(w.rows[m]).Some?
    ensures var w' := Alone(w, k, c, 7);
      && OnlyTouches(w, w', m)
      && Concluded(w, w', k, m, c.candidate.(message := m, request := RequestOf(w.rows[m]).value), c.environment, c.now)
  {
    assert RowOk(m, w.rows[m]) && CanClaim(w.rows[m], c.now);
    var w3, facts := Alone(w, k, c, 3), RequestOf(w.rows[m]).value;
    LateCreatorClaims(w, k, m, c);
    AloneAppend(w, k, c, 3, 4);
    ClaimIsDecided(w3, k, m, c.token, facts, c);
    Onward(w, w3, Alone(w3, k, c, 4), k, m, c.candidate.(message := m, request := facts), c.environment, c.now);
  }

  lemma LateCreatorClaims(w: World, k: nat, m: nat, c: Choice)
    requires Inv(w) && At(w, k, m, CreateLost) && m in w.rows && CanClaim(w.rows[m], c.now) && c.token !in w.used
    requires RequestOf(w.rows[m]).Some?
    ensures Holding(Alone(w, k, c, 3), k, m, c.token, RequestOf(w.rows[m]).value)
    ensures OnlyTouches(w, Alone(w, k, c, 3), m) && Alone(w, k, c, 3).table == w.table
  {
    var w1 := Advance(w, k, c);
    assert w1 == AtPhase(w, k, Claiming);
    AdvanceKeeps(w, k, c, w1);
    var w2 := Advance(w1, k, c);
    AdvanceKeeps(w1, k, c, w2);
    ReadBack(w1, k, m, c, w2);
    AdvanceKeeps(w2, k, c, Advance(w2, k, c));
    ThreeSteps(w, k, c);
  }

  /** An admitted message whose dispatch is missing gets it when its outcome is answered again. */
  lemma ReplayRepairs(w: World, k: nat, m: nat, row: Row, o: Outcome, t: Queue.Target, c: Choice)
    requires At(w, k, m, Replaying(row)) && ToAdmissionOutcome(row) == Some(o) && o.admitted
    requires TargetOf(o.identity, o.workspace, o.thread) == Some(t) && FindDispatch(w.table, m).None?
    ensures var w' := Alone(w, k, c, 2);
      && At(w', k, m, Finished(o)) && w'.rows == w.rows
      && w'.table == w.table + [Queue.Dispatch(m, t, Queue.Queued, 0, false, None, None, c.now, None)]
  {
    var w1 := AtPhase(w, k, Repairing(o));
    TwoSteps(w, k, c, w1, Repair(w1, k, o, c.now));
  }
}
