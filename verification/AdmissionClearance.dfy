/** Over every run, what is stored and dispatched was decided: some evaluation of the message reached it. */
module AdmissionClearance {
  import opened Basics
  import Queue = DispatchQueue
  import opened AdmissionOutcomes
  import opened AdmissionProtocol
  import opened AdmissionInvariant
  import opened AdmissionTheorems
  import opened AdmissionPolicy

  /** The message as an evaluation in this action sees it, with the request its first claim stored. */
  function Seen(act: Action, m: nat, facts: RequestFacts): Candidate
    requires act.Proceed?
  {
    act.choice.candidate.(message := m, request := facts)
  }

  predicate DecidedBy(act: Action, rows: map<nat, Row>, m: nat, facts: RequestFacts, o: Outcome) {
    act.Proceed? && HoldsRequest(rows, m, facts) && Admit(Seen(act, m, facts), act.choice.environment) == Some(o)
  }

  ghost predicate Decided(done: seq<Action>, rows: map<nat, Row>, m: nat, o: Outcome) {
    exists i: nat, facts :: i < |done| && DecidedBy(done[i], rows, m, facts, o)
  }

  predicate Carries(p: Phase) {
    p.Allowing? || p.Denying? || p.DenyCommit?
  }

  ghost predicate PhasesDecided(w: World, done: seq<Action>) {
    forall k: nat :: k < |w.processes| && Carries(w.processes[k].phase) ==>
      Decided(done, w.rows, w.processes[k].message, w.processes[k].phase.outcome)
  }

  ghost predicate RowsDecided(w: World, done: seq<Action>) {
    forall m :: m in w.rows && w.rows[m].state.Completed? ==>
      ToAdmissionOutcome(w.rows[m]).Some? && Decided(done, w.rows, m, ToAdmissionOutcome(w.rows[m]).value)
  }

  lemma StaysDecided(done: seq<Action>, act: Action, rows: map<nat, Row>, rows': map<nat, Row>, m: nat, o: Outcome)
    requires Decided(done, rows, m, o) && RowsGrow(rows, rows')
    ensures Decided(done + [act], rows', m, o)
  {
    var i: nat, facts :| i < |done| && DecidedBy(done[i], rows, m, facts, o);
    assert (done + [act])[i] == done[i] && DecidedBy((done + [act])[i], rows', m, facts, o);
  }

  /** A statement moves its own delivery only. */
  ghost predicate MovesOne(w: World, k: nat, w': World) {
    && k < |w.processes| == |w'.processes| && w'.processes[k].message == w.processes[k].message
    && (forall j: nat :: j < |w.processes| && j != k ==> w'.processes[j] == w.processes[j])
  }

  /** Writing statements do not hand their delivery an outcome. */
  ghost predicate HandsNothing(w: World, k: nat, w': World) {
    MovesOne(w, k, w') && (Carries(w'.processes[k].phase) ==> w'.processes[k].phase == w.processes[k].phase)
  }

  lemma ClosersHandNothing(w: World, k: nat, t: Token, o: Outcome, now: Time)
    requires k < |w.processes|
    ensures HandsNothing(w, k, Allow(w, k, t, o, now)) && HandsNothing(w, k, Deny(w, k, t, o, now))
    ensures HandsNothing(w, k, Release(w, k, t)) && HandsNothing(w, k, Repair(w, k, o, now))
  {
  }

  lemma OpenersHandNothing(w: World, k: nat, c: Choice)
    requires k < |w.processes|
    ensures HandsNothing(w, k, Create(w, k, c)) && HandsNothing(w, k, Claim(w, k, c))
  {
  }

  lemma AdoptersHandNothing(w: World, k: nat, t: Token, d: nat, now: Time)
    requires k < |w.processes| && d < |w.table|
    ensures HandsNothing(w, k, Adopt(w, k, d, now)) && HandsNothing(w, k, CloseLegacy(w, k, t, d, now))
  {
  }

  lemma WritersHandNothing(w: World, k: nat, c: Choice, w': World)
    requires k < |w.processes| && Writes(w.processes[k].phase) && w' == Advance(w, k, c)
    ensures HandsNothing(w, k, w')
  {
    match w.processes[k].phase
    case Adopting(d) => if d < |w.table| { AdoptersHandNothing(w, k, "", d, c.now); }
    case LegacyClosing(t, d) => if d < |w.table| { AdoptersHandNothing(w, k, t, d, c.now); }
    case Creating => OpenersHandNothing(w, k, c);
    case Claiming => OpenersHandNothing(w, k, c);
    case Allowing(t, o) => ClosersHandNothing(w, k, t, o, c.now);
    case DenyCommit(t, o) => ClosersHandNothing(w, k, t, o, c.now);
    case Releasing(t) => ReleaseHandsNothing(w, k, t);
    case Repairing(o) => ClosersHandNothing(w, k, "", o, c.now);
  }

  lemma ReleaseHandsNothing(w: World, k: nat, t: Token)
    requires k < |w.processes|
    ensures HandsNothing(w, k, Release(w, k, t))
  {
  }

  lemma ProcessesStay(w: World, k: nat, c: Choice, w': World)
    requires Inv(w) && k < |w.processes| && w' == Advance(w, k, c)
    ensures MovesOne(w, k, w')
  {
    if Writes(w.processes[k].phase) { WritersHandNothing(w, k, c, w'); } else { PhaseOkOf(w, k); }
  }

  /** An outcome that a delivery carries was carried before, or this statement is its evaluation. */
  lemma CarriedOrEvaluated(w: World, k: nat, c: Choice, w': World)
    requires Inv(w) && k < |w.processes| && w' == Advance(w, k, c) && MovesOne(w, k, w')
      && Carries(w'.processes[k].phase)
    ensures var p, p' := w.processes[k].phase, w'.processes[k].phase;
      || (Carries(p) && p.outcome == p'.outcome)
      || (p.Evaluating? && DecidedBy(Proceed(k, c), w.rows, w.processes[k].message, p.request, p'.outcome))
  {
    PhaseOkOf(w, k);
    if Writes(w.processes[k].phase) { WritersHandNothing(w, k, c, w'); } else { LooksCarry(w, k, c); }
  }

  lemma LooksCarry(w: World, k: nat, c: Choice)
    requires k < |w.processes| && !Writes(w.processes[k].phase) && Grounded(w.table, w.processes[k].phase)
    requires PhaseOk(w.rows, w.table, w.used, w.processes[k].message, w.processes[k].phase)
    ensures var p, p' := w.processes[k].phase, Look(w, w.processes[k].message, w.processes[k].phase, c);
      Carries(p') ==>
        || (Carries(p) && p.outcome == p'.outcome)
        || (p.Evaluating? && DecidedBy(Proceed(k, c), w.rows, w.processes[k].message, p.request, p'.outcome))
  {
    var p, m := w.processes[k].phase, w.processes[k].message;
    if p.Replaying? {
      assert !Carries(Replay(w.table, m, p.row));
    } else if p.Evaluating? {
      var o := Admit(Seen(Proceed(k, c), m, p.request), c.environment);
    }
  }

  /** A row becomes completed when a delivery stores the outcome it carries. */
  lemma CompletedHere(w: World, k: nat, c: Choice, m: nat, w': World)
    requires Inv(w) && k < |w.processes| && w' == Advance(w, k, c)
    requires m in w'.rows && w'.rows[m].state.Completed? && (m in w.rows ==> !w.rows[m].state.Completed?)
    ensures var p := w.processes[k];
      m == p.message && Carries(p.phase) && ToAdmissionOutcome(w'.rows[m]) == Some(p.phase.outcome)
  {
    PhaseOkOf(w, k);
    var p := w.processes[k].phase;
    var e := AdvanceEffect(w, k, c, w');
    match p
    case Allowing(t, o) => StoredReadsBack(w, k, t, o, c.now);
    case DenyCommit(t, o) => StoredReadsBack(w, k, t, o, c.now);
    case _ =>
  }

  lemma StoredReadsBack(w: World, k: nat, t: Token, o: Outcome, now: Time)
    requires Inv(w) && k < |w.processes| && WellFormed(o) && o.message == w.processes[k].message
    requires w.processes[k].message in w.rows
    ensures var staged := StageCompletion(w.rows[w.processes[k].message], t, o, now);
      staged.Some? ==> ToAdmissionOutcome(staged.value) == Some(o)
  {
    var r := w.rows[w.processes[k].message];
    assert RowOk(w.processes[k].message, r);
    if CompletedDecision(o).Some? { FilledReadsBack(r, CompletedDecision(o).value, o, now); }
  }

  lemma AdvanceDecides(w: World, k: nat, c: Choice, done: seq<Action>, w': World)
    requires Inv(w) && PhasesDecided(w, done) && RowsDecided(w, done) && k < |w.processes| && w' == Advance(w, k, c)
    ensures PhasesDecided(w', done + [Proceed(k, c)]) && RowsDecided(w', done + [Proceed(k, c)])
  {
    var act := Proceed(k, c);
    assert w' == Step(w, act);
    StepRowsGrow(w, act);
    ProcessesStay(w, k, c, w');
    forall j: nat | j < |w'.processes| && Carries(w'.processes[j].phase)
      ensures Decided(done + [act], w'.rows, w'.processes[j].message, w'.processes[j].phase.outcome)
    {
      PhaseDecided(w, k, c, done, w', j);
    }
    forall m | m in w'.rows && w'.rows[m].state.Completed?
      ensures ToAdmissionOutcome(w'.rows[m]).Some?
        && Decided(done + [act], w'.rows, m, ToAdmissionOutcome(w'.rows[m]).value)
    {
      if m in w.rows && w.rows[m].state.Completed? {
        StaysDecided(done, act, w.rows, w'.rows, m, ToAdmissionOutcome(w.rows[m]).value);
      } else {
        CompletedHere(w, k, c, m, w');
        StaysDecided(done, act, w.rows, w'.rows, m, w.processes[k].phase.outcome);
      }
    }
  }

  lemma PhaseDecided(w: World, k: nat, c: Choice, done: seq<Action>, w': World, j: nat)
    requires Inv(w) && PhasesDecided(w, done) && k < |w.processes| && w' == Advance(w, k, c)
      && RowsGrow(w.rows, w'.rows)
    requires MovesOne(w, k, w')
    requires j < |w'.processes| && Carries(w'.processes[j].phase)
    ensures Decided(done + [Proceed(k, c)], w'.rows, w'.processes[j].message, w'.processes[j].phase.outcome)
  {
    var act, m := Proceed(k, c), w.processes[j].message;
    if j == k { CarriedOrEvaluated(w, k, c, w'); }
    if Carries(w.processes[j].phase) && w.processes[j].phase.outcome == w'.processes[j].phase.outcome {
      StaysDecided(done, act, w.rows, w'.rows, m, w'.processes[j].phase.outcome);
    } else {
      var facts := w.processes[k].phase.request;
      assert (done + [act])[|done|] == act
        && DecidedBy((done + [act])[|done|], w'.rows, m, facts, w'.processes[j].phase.outcome);
    }
  }

  lemma StepDecides(w: World, act: Action, done: seq<Action>)
    requires Inv(w) && PhasesDecided(w, done) && RowsDecided(w, done)
    ensures PhasesDecided(Step(w, act), done + [act]) && RowsDecided(Step(w, act), done + [act])
  {
    if act.Proceed? && act.process < |w.processes| {
      AdvanceDecides(w, act.process, act.choice, done, Step(w, act));
    } else {
      var w' := Step(w, act);
      forall k: nat | k < |w'.processes| && Carries(w'.processes[k].phase)
        ensures Decided(done + [act], w'.rows, w'.processes[k].message, w'.processes[k].phase.outcome)
      {
        StaysDecided(done, act, w.rows, w'.rows, w'.processes[k].message, w'.processes[k].phase.outcome);
      }
      forall m | m in w'.rows && w'.rows[m].state.Completed?
        ensures Decided(done + [act], w'.rows, m, ToAdmissionOutcome(w'.rows[m]).value)
      {
        StaysDecided(done, act, w.rows, w'.rows, m, ToAdmissionOutcome(w.rows[m]).value);
      }
    }
  }

  lemma {:induction false} RunDecides(w: World, done: seq<Action>, acts: seq<Action>)
    requires Inv(w) && PhasesDecided(w, done) && RowsDecided(w, done)
    ensures RowsDecided(Run(w, acts), done + acts) && Inv(Run(w, acts))
    decreases |acts|
  {
    if acts == [] {
      assert done + acts == done;
    } else {
      StepDecides(w, acts[0], done);
      StepKeeps(w, acts[0]);
      RunDecides(Step(w, acts[0]), done + [acts[0]], acts[1..]);
      assert done + [acts[0]] + acts[1..] == done + acts;
    }
  }

  /** Every stored outcome is what some evaluation of the message decided, on the request its first claim stored. */
  lemma StoredWasDecided(acts: seq<Action>, m: nat)
    requires var w := Run(INITIAL, acts); m in w.rows && w.rows[m].state.Completed?
    ensures var w := Run(INITIAL, acts);
      ToAdmissionOutcome(w.rows[m]).Some? && Decided(acts, w.rows, m, ToAdmissionOutcome(w.rows[m]).value)
  {
    InitialInv();
    RunDecides(INITIAL, [], acts);
    assert [] + acts == acts;
  }

  /** An evaluation of the message cleared every hurdle and led to this place. */
  ghost predicate Cleared(act: Action, m: nat, facts: RequestFacts, target: Queue.Target) {
    && act.Proceed? && ClearsAll(Seen(act, m, facts), act.choice.environment)
    && var e := act.choice.environment;
    e.identity.id == Some(target.identity) && e.workspace == target.workspace && e.thread == target.thread
  }

  /** No dispatch without clearance: over every run, each was admitted by an evaluation that clears every hurdle. */
  lemma DispatchWasCleared(acts: seq<Action>, i: nat)
    requires i < |Run(INITIAL, acts).table|
    ensures var w := Run(INITIAL, acts);
      var m := w.table[i].message;
      exists k: nat, facts :: k < |acts| && HoldsRequest(w.rows, m, facts)
        && Cleared(acts[k], m, facts, w.table[i].target)
  {
    var w := Run(INITIAL, acts);
    var m := w.table[i].message;
    OneDispatchPerAdmission(acts, m);
    StoredWasDecided(acts, m);
    var o := ToAdmissionOutcome(w.rows[m]).value;
    var k: nat, facts :| k < |acts| && DecidedBy(acts[k], w.rows, m, facts, o);
    AdmittedIff(Seen(acts[k], m, facts), acts[k].choice.environment);
    assert o.admitted;
    assert Cleared(acts[k], m, facts, w.table[i].target);
  }
}
