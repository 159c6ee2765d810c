/** What an audit row says about the dispatch it decided: the error it names is the one the operator saw. */
module DispatchAudits {
  import opened Basics
  import Queue = DispatchQueue
  import opened DispatchRecovery
  import opened DispatchRecoveryRuns

  /** The request has checked its dispatch, and what it read of it is still there. */
  predicate Current(w: World, k: nat) {
    && k < |w.processes| && (w.processes[k].phase.Checked? || w.processes[k].phase.Proving?)
    && var d := w.processes[k].request.key.dispatch;
    d < |w.table| && w.table[d].status.Uncertain? && w.processes[k].phase.error == w.table[d].lastError
  }

  /** A request that finds its dispatch uncertain has read its error. */
  lemma CheckReads(w: World, k: nat, evidence: Evidence, report: CommitReport)
    requires k < |w.processes| && w.processes[k].phase.LookedUp?
    requires var d := w.processes[k].request.key.dispatch; d < |w.table| && w.table[d].status.Uncertain?
    ensures Current(Advance(w, k, evidence, report), k)
  {
  }

  /** The step is of somebody else and decides nothing about this dispatch. */
  predicate Aside(w: World, act: Action, limit: nat, k: nat, d: nat) {
    var w' := Step(w, act, limit);
    !(act.Proceed? && act.process == k) && (|w'.audits| > |w.audits| ==> w'.audits[|w.audits|].key.dispatch != d)
  }

  predicate AsideRun(w: World, acts: seq<Action>, limit: nat, k: nat, d: nat)
    decreases |acts|
  {
    acts == [] || (Aside(w, acts[0], limit, k, d) && AsideRun(Step(w, acts[0], limit), acts[1..], limit, k, d))
  }

  lemma AsideKeeps(w: World, act: Action, limit: nat, k: nat)
    requires Current(w, k) && Aside(w, act, limit, k, w.processes[k].request.key.dispatch)
    ensures Current(Step(w, act, limit), k) && Step(w, act, limit).processes[k] == w.processes[k]
    ensures var d := w.processes[k].request.key.dispatch; Step(w, act, limit).table[d] == w.table[d]
  {
  }

  /** As long as nobody decides the dispatch, what was read of it stays true. */
  lemma {:induction false} WaitingKeeps(w: World, acts: seq<Action>, limit: nat, k: nat)
    requires Current(w, k) && AsideRun(w, acts, limit, k, w.processes[k].request.key.dispatch)
    ensures Current(Run(w, acts, limit), k) && Run(w, acts, limit).processes[k] == w.processes[k]
    decreases |acts|
  {
    if acts != [] {
      AsideKeeps(w, acts[0], limit, k);
      WaitingKeeps(Step(w, acts[0], limit), acts[1..], limit, k);
    }
  }

  /** Every audit row is the request's own, with the evidence it found and the error it read. */
  lemma AuditIsTheRequests(w: World, k: nat, evidence: Evidence, report: CommitReport)
    requires k < |w.processes| && w.processes[k].phase.Checked?
    requires |Advance(w, k, evidence, report).audits| > |w.audits|
    ensures var a, r := Advance(w, k, evidence, report).audits[|w.audits|], w.processes[k].request;
      && a.key == r.key && a.operator == r.operator && a.reason == r.reason && a.before == Queue.Uncertain
      && a.beforeError == w.processes[k].phase.error && a.evidence == w.processes[k].phase.evidence
  {
  }

  /**
   If nobody decides the dispatch between the check of a request and its commit, whatever else happens, the audit row
   names the error the dispatch has when it is decided.
   */
  lemma AuditNamesTheError(w: World, acts: seq<Action>, limit: nat, k: nat, evidence: Evidence, report: CommitReport)
    requires Current(w, k) && w.processes[k].phase.Checked?
    requires AsideRun(w, acts, limit, k, w.processes[k].request.key.dispatch)
    ensures var w1 := Run(w, acts, limit);
      var w', d := Advance(w1, k, evidence, report), w.processes[k].request.key.dispatch;
      |w'.audits| > |w1.audits| ==> d < |w1.table| && w'.audits[|w1.audits|].beforeError == w1.table[d].lastError
  {
    WaitingKeeps(w, acts, limit, k);
  }

  // ----- When somebody does -----

  /** The dispatch has left the uncertainty it was in after its `n`-th attempt. */
  predicate Left(r: Queue.Dispatch, n: nat) {
    r.attempts > n || (r.attempts == n && !r.status.Uncertain? && !r.status.Running?)
  }

  lemma StepStaysLeft(w: World, act: Action, limit: nat, d: nat, n: nat)
    requires d < |w.table| && Left(w.table[d], n)
    ensures d < |Step(w, act, limit).table| && Left(Step(w, act, limit).table[d], n)
  {
  }

  lemma {:induction false} RunStaysLeft(w: World, acts: seq<Action>, limit: nat, d: nat, n: nat)
    requires d < |w.table| && Left(w.table[d], n)
    ensures d < |Run(w, acts, limit).table| && Left(Run(w, acts, limit).table[d], n)
    decreases |acts|
  {
    if acts != [] {
      StepStaysLeft(w, acts[0], limit, d, n);
      RunStaysLeft(Step(w, acts[0], limit), acts[1..], limit, d, n);
    }
  }

  lemma DecisionLeaves(w: World, act: Action, limit: nat, k: nat, d: nat)
    requires d < |w.table| && !(act.Proceed? && act.process == k) && !Aside(w, act, limit, k, d)
    ensures d < |Step(w, act, limit).table| && Left(Step(w, act, limit).table[d], w.table[d].attempts)
  {
    DecisionMovesItsDispatch(w, act, limit);
  }

  /**
   A request that commits decides the very uncertainty it checked exactly when nobody has decided the dispatch in
   between: otherwise the dispatch has run again.
   */
  lemma {:induction false} SameUncertaintyIff(w: World, acts: seq<Action>, limit: nat, k: nat)
    requires Current(w, k) && forall i: nat :: i < |acts| ==> !(acts[i].Proceed? && acts[i].process == k)
    ensures var d, w' := w.processes[k].request.key.dispatch, Run(w, acts, limit);
      && d < |w'.table|
      && (AsideRun(w, acts, limit, k, d) <==>
            w'.table[d].status.Uncertain? && w'.table[d].attempts == w.table[d].attempts)
    decreases |acts|
  {
    var d := w.processes[k].request.key.dispatch;
    if acts != [] {
      var w1 := Step(w, acts[0], limit);
      if Aside(w, acts[0], limit, k, d) {
        AsideKeeps(w, acts[0], limit, k);
        SameUncertaintyIff(w1, acts[1..], limit, k);
      } else {
        DecisionLeaves(w, acts[0], limit, k, d);
        RunStaysLeft(w1, acts[1..], limit, d, w.table[d].attempts);
      }
    }
  }

  const CRASH := Work(Queue.DoComplete(0, "token", Queue.BecomeUncertain("crash"), 0))

  /**
   Otherwise it may name an older one: a retry is approved and fails in another way between the check of a second
   request and its commit.
   */
  lemma AuditCanNameAnOlderError(limit: nat) returns (acts: seq<Action>)
    ensures acts == Raced(REPEAT, BURY_AGAIN) + [CLAIM, CRASH] + [SECOND]
    ensures var w := Run(INITIAL, acts, limit);
      && |w.audits| == 2 && |w.table| == 1 && w.table[0].status.Dead?
      && w.audits[1].beforeError == Some("timeout") && w.table[0].lastError == Some("crash")
  {
    acts := Raced(REPEAT, BURY_AGAIN) + [CLAIM, CRASH] + [SECOND];
    RequestsAreSound();
    RacedRuns(REPEAT, BURY_AGAIN, limit, BOTH);
    var w := FirstDecided(REPEAT, BURY_AGAIN);
    assert Queue.CanClaim(w.table, 0, limit);
    var w1 := StepWith(w, CLAIM, limit, BOTH);
    var w2 := StepWith(w1, CRASH, limit, BOTH);
    Two(w, CLAIM, w1, CRASH, w2, limit, BOTH);
    assert w2.table[0].status.Uncertain? && w2.table[0].lastError == Some("crash");
    var n := Exit(w, w1) + Exit(w1, w2);
    Joined(INITIAL, Raced(REPEAT, BURY_AGAIN), w, 1, [CLAIM, CRASH], w2, n, limit, BOTH);
    LastDecision(w2, limit);
    var w3 := StepWith(w2, SECOND, limit, BOTH);
    One(w2, SECOND, w3, limit, BOTH);
    Joined(INITIAL, Raced(REPEAT, BURY_AGAIN) + [CLAIM, CRASH], w2, 1 + n, [SECOND], w3, Exit(w2, w3), limit, BOTH);
  }

  lemma LastDecision(w: World, limit: nat)
    requires |w.table| == 1 && w.table[0].status.Uncertain? && w.table[0].lastError == Some("crash")
    requires w.audits == [AuditOf(REPEAT, Some("timeout"), None)]
    requires |w.processes| == 2 && w.processes[1] == Process(BURY_AGAIN, READY)
    ensures var w' := StepWith(w, SECOND, limit, BOTH);
      && |w'.audits| == 2 && w'.audits[1] == AuditOf(BURY_AGAIN, Some("timeout"), None)
      && |w'.table| == 1 && w'.table[0].status.Dead? && w'.table[0].lastError == Some("crash")
  {
    RequestsAreSound();
    assert w.audits[0].key != BURY_AGAIN.key;
    assert Admissible(w, 1, BOTH);
  }
}
