/**
 Operators' requests and stored results together. The evidence of a confirmed success is read from the stored results,
 in a statement of its own after the dispatch was read; workers, saves and other requests run in between.
 */
module OperatorEvidence {
  import opened Basics
  import Queue = DispatchQueue
  import Recovery = DispatchRecovery
  import Results = ResponsePersistence
  import Convergence = ResponseConvergence

  const MISSING := "dispatch_response_missing"
  const MISMATCH := "hermes_response_mismatch"

  /** What an operator needs to confirm a success: a stored result that agrees with whatever response exists. */
  function EvidenceFor(w: Results.World, d: nat): Recovery.Evidence {
    if d !in w.raws || d >= |w.table| then Recovery.Refused(MISSING)
    else
      var o := Results.ToOutcome(w.raws[d], w.table[d]);
      var existing := Results.FindByMessage(w.responses, o.message, |w.responses|);
      if !Results.Saveable(o) || (existing.Some? && !Results.Compatible(w.responses[existing.value], o))
      then Recovery.Refused(MISMATCH) else Recovery.Verified(d)
  }

  /** The two machines over one dispatch table. */
  datatype World = World(requests: Recovery.World, results: Results.World)

  const INITIAL := World(Recovery.INITIAL, Results.INITIAL)

  datatype Action =
    | Submit(request: Recovery.Request)
    | Proceed(process: nat, report: CommitReport)
    | Elsewhere(action: Results.Action)

  /** Only requests decide uncertain dispatches. */
  function Step(w: World, act: Action, targetOf: nat -> Results.Target): World {
    match act
    case Submit(r) => w.(requests := Recovery.Step(w.requests, Recovery.Submit(r), 0))
    case Proceed(k, report) =>
      if k >= |w.requests.processes| then w
      else
        var e := EvidenceFor(w.results, w.requests.processes[k].request.key.dispatch);
        var requests := Recovery.Advance(w.requests, k, e, report);
        World(requests, w.results.(table := requests.table))
    case Elsewhere(a) =>
      if a.DoWork? && a.action.DoResolve? then w
      else
        var results := Results.Step(w.results, a, targetOf);
        World(w.requests.(table := results.table), results)
  }

  function Run(w: World, acts: seq<Action>, targetOf: nat -> Results.Target): World
    decreases |acts|
  {
    if acts == [] then w else Run(Step(w, acts[0], targetOf), acts[1..], targetOf)
  }

  ghost predicate Inv(w: World, targetOf: nat -> Results.Target) {
    && w.requests.table == w.results.table && Recovery.Inv(w.requests) && Recovery.Unconfirmed(w.requests)
    && Convergence.Inv(w.results, targetOf)
  }

  /** Only the stored result of a success is evidence. */
  lemma EvidenceIsOfSuccess(w: Results.World, targetOf: nat -> Results.Target, d: nat)
    requires Convergence.Inv(w, targetOf)
    ensures EvidenceFor(w, d).Verified? ==> d < |w.table| && w.table[d].status.Success?
    ensures d < |w.table| && w.table[d].status.Uncertain? ==> EvidenceFor(w, d) == Recovery.Refused(MISSING)
  {
  }

  // ----- Steps -----

  /** A request leaves the table alone, or decides one uncertain dispatch. */
  lemma RequestDecidesOne(w: Recovery.World, k: nat, e: Recovery.Evidence, report: CommitReport)
    requires k < |w.processes|
    ensures var t := Recovery.Advance(w, k, e, report).table;
      var key := w.processes[k].request.key;
      t == w.table || t == Queue.Step(w.table, Queue.DoResolve(key.dispatch, key.action), 0)
  {
  }

  lemma ProceedKeeps(w: World, k: nat, report: CommitReport, targetOf: nat -> Results.Target, w': World)
    requires Inv(w, targetOf) && k < |w.requests.processes| && w' == Step(w, Proceed(k, report), targetOf)
    ensures Inv(w', targetOf)
  {
    var key := w.requests.processes[k].request.key;
    var e := EvidenceFor(w.results, key.dispatch);
    EvidenceIsOfSuccess(w.results, targetOf, key.dispatch);
    Recovery.AdvanceKeeps(w.requests, k, e, report);
    Recovery.HonestAdvance(w.requests, k, e, report, w'.requests);
    RequestDecidesOne(w.requests, k, e, report);
    if w'.requests.table == w.requests.table {
      assert w'.results == w.results;
    } else {
      Convergence.WorkKeeps(w.results, Queue.DoResolve(key.dispatch, key.action), 0, targetOf);
    }
  }

  lemma TableFinishes(w: Results.World, a: Results.Action, targetOf: nat -> Results.Target)
    ensures Queue.Finished(w.table, Results.Step(w, a, targetOf).table)
  {
    match a
    case DoWork(act, limit) => Queue.StepFinishes(w.table, act, limit);
    case DoComplete(d, token, o, r, at) => Queue.StepFinishes(w.table, Queue.DoComplete(d, token, Queue.Succeed, at),
      0);
    case DoAdvance(k, report) => SaversLeaveTable(w, k, report);
    case _ =>
  }

  lemma SaversLeaveTable(w: Results.World, k: nat, report: CommitReport)
    ensures Results.Advance(w, k, report).table == w.table
  {
  }

  lemma ElsewhereKeeps(w: World, a: Results.Action, targetOf: nat -> Results.Target, w': World)
    requires Inv(w, targetOf) && w' == Step(w, Elsewhere(a), targetOf)
    ensures Inv(w', targetOf)
  {
    if w' != w {
      Convergence.StepKeeps(w.results, a, targetOf);
      TableFinishes(w.results, a, targetOf);
      SameRequests(w.requests, w'.requests);
    }
  }

  lemma SameRequests(w: Recovery.World, w': Recovery.World)
    requires Recovery.Inv(w) && Recovery.Unconfirmed(w) && w' == w.(table := w'.table)
      && Queue.Finished(w.table, w'.table)
    ensures Recovery.Inv(w') && Recovery.Unconfirmed(w')
  {
    forall k: nat | k < |w'.processes| ensures Recovery.ProcessOk(w', w'.processes[k]) {
      assert Recovery.ProcessOk(w, w.processes[k]);
    }
    forall k: nat | k < |w'.processes| && Recovery.Confirms(w'.processes[k])
      ensures Recovery.Pending(w'.table, w'.processes[k])
    {
      assert Recovery.Pending(w.table, w.processes[k]);
    }
  }

  lemma StepKeeps(w: World, act: Action, targetOf: nat -> Results.Target)
    requires Inv(w, targetOf)
    ensures Inv(Step(w, act, targetOf), targetOf)
  {
    match act
    case Submit(r) => Recovery.StepKeeps(w.requests, Recovery.Submit(r), 0);
    case Proceed(k, report) =>
      if k < |w.requests.processes| { ProceedKeeps(w, k, report, targetOf, Step(w, act, targetOf)); }
    case Elsewhere(a) => ElsewhereKeeps(w, a, targetOf, Step(w, act, targetOf));
  }

  lemma {:induction false} RunKeeps(w: World, acts: seq<Action>, targetOf: nat -> Results.Target)
    requires Inv(w, targetOf)
    ensures Inv(Run(w, acts, targetOf), targetOf)
    decreases |acts|
  {
    if acts != [] {
      StepKeeps(w, acts[0], targetOf);
      RunKeeps(Step(w, acts[0], targetOf), acts[1..], targetOf);
    }
  }

  /**
   However requests, workers and saves interleave, no success is ever confirmed: no audit row records one and no request
   reports one. Evidence read while the dispatch is uncertain is missing; evidence that is there comes too late.
   */
  lemma NoSuccessIsConfirmed(acts: seq<Action>, targetOf: nat -> Results.Target)
    ensures var w := Run(INITIAL, acts, targetOf);
      && (forall a: nat :: a < |w.requests.audits| ==> !w.requests.audits[a].key.action.ConfirmSuccess?)
      && (forall k: nat :: k < |w.requests.processes| && Recovery.Confirms(w.requests.processes[k]) ==>
            !(w.requests.processes[k].phase.Done? && w.requests.processes[k].phase.outcome.Resolved?))
      && (forall d: nat :: d < |w.results.table| && w.results.table[d].status.Uncertain? ==>
            EvidenceFor(w.results, d) == Recovery.Refused(MISSING))
  {
    var w := Run(INITIAL, acts, targetOf);
    Convergence.InitialInv(targetOf);
    RunKeeps(INITIAL, acts, targetOf);
    forall k: nat | k < |w.requests.processes| && Recovery.Confirms(w.requests.processes[k])
      ensures Recovery.Pending(w.requests.table, w.requests.processes[k])
    {
    }
    forall d: nat | d < |w.results.table| && w.results.table[d].status.Uncertain?
      ensures EvidenceFor(w.results, d) == Recovery.Refused(MISSING)
    {
      EvidenceIsOfSuccess(w.results, targetOf, d);
    }
  }
}
