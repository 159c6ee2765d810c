/** A run from empty tables in which evidence of a success is found and still nothing can be confirmed. */
module OperatorEvidenceRuns {
  import opened Basics
  import Queue = DispatchQueue
  import Recovery = DispatchRecovery
  import Results = ResponsePersistence
  import opened OperatorEvidence

  lemma {:induction false} RunAppend(w: World, first: seq<Action>, second: seq<Action>, targetOf: nat -> Results.Target)
    ensures Run(w, first + second, targetOf) == Run(Run(w, first, targetOf), second, targetOf)
    decreases |first|
  {
    if first == [] {
      assert first + second == second;
    } else {
      assert (first + second)[1..] == first[1..] + second;
      RunAppend(Step(w, first[0], targetOf), first[1..], second, targetOf);
    }
  }

  lemma Three(w: World, acts: seq<Action>, w1: World, w2: World, w3: World, targetOf: nat -> Results.Target)
    requires |acts| == 3 && w1 == Step(w, acts[0], targetOf) && w2 == Step(w1, acts[1], targetOf)
    requires w3 == Step(w2, acts[2], targetOf)
    ensures Run(w, acts, targetOf) == w3
  {
    assert acts[1..][0] == acts[1] && acts[1..][1..][0] == acts[2] && acts[1..][1..][1..] == [];
    assert Run(w2, acts[1..][1..], targetOf) == w3;
    assert Run(w1, acts[1..], targetOf) == w3;
  }

  const TARGET := Queue.Target("identity", "workspace", "thread")
  const QUEUED := Queue.Dispatch(1, TARGET, Queue.Queued, 0, false, None, None, 0, None)
  const RUNNING := QUEUED.(status := Queue.Running, attempts := 1, token := Some("t1"), lease := Some(60))
  const UNSURE := QUEUED.(status := Queue.Uncertain, attempts := 1, lastError := Some("timeout"))
  const FAILED := UNSURE.(status := Queue.Failed, manualRetry := true)
  const RERUN := QUEUED.(status := Queue.Running, attempts := 2, token := Some("t2"), lease := Some(60))
  const ANSWERED := QUEUED.(status := Queue.Success, attempts := 2)
  const ANSWER := Results.Outcome(1, "workspace", "thread", "hello", None)
  const CONFIRM := Recovery.Request(Recovery.Key(0, Queue.ConfirmSuccess, "ticket-1"), "operator", "reason")
  const RETRY := Recovery.Request(Recovery.Key(0, Queue.RetryApproved, "ticket-2"), "operator", "reason")
  const READY := Recovery.Checked(Some("timeout"), None)
  const PROVING := Recovery.Proving(Some("timeout"))
  const RETRIED := Recovery.Done(Recovery.Resolved(0, Queue.Failed, false))

  function Work(a: Queue.Action): Action {
    Elsewhere(Results.DoWork(a, 0))
  }

  function At(row: Queue.Dispatch, audits: seq<Recovery.Audit>, processes: seq<Recovery.Process>, done: bool): World {
    var n := |audits|;
    World(Recovery.World([row], audits, processes, seq(n, _ => 1), seq(n, _ => Clean)),
          Results.INITIAL.(table := [row],
                           raws := if done then map[0 := Results.RawOf(ANSWER)] else map[],
                           outcomes := if done then map[0 := ANSWER] else map[]))
  }

  // ----- The dispatch becomes uncertain -----

  const OPENING := [Work(Queue.DoEnqueue(1, TARGET, 0)), Work(Queue.DoClaim(0, "t1", 60, 0)),
                    Work(Queue.DoComplete(0, "t1", Queue.BecomeUncertain("timeout"), 0))]

  lemma OpeningRuns(targetOf: nat -> Results.Target)
    ensures Run(INITIAL, OPENING, targetOf) == At(UNSURE, [], [], false)
  {
    var w1, w2 := At(QUEUED, [], [], false), At(RUNNING, [], [], false);
    assert w1 == Step(INITIAL, OPENING[0], targetOf);
    assert Queue.CanClaim([QUEUED], 0, 0);
    assert w2 == Step(w1, OPENING[1], targetOf);
    Three(INITIAL, OPENING, w1, w2, At(UNSURE, [], [], false), targetOf);
  }

  // ----- One operator reads it, another approves a retry -----

  const READ := [Submit(CONFIRM), Proceed(0, Clean), Proceed(0, Clean)]

  lemma ReadRuns(targetOf: nat -> Results.Target)
    ensures Run(At(UNSURE, [], [], false), READ, targetOf)
      == At(UNSURE, [], [Recovery.Process(CONFIRM, PROVING)], false)
  {
    var w1 := At(UNSURE, [], [Recovery.Process(CONFIRM, Recovery.Fresh)], false);
    var w2 := At(UNSURE, [], [Recovery.Process(CONFIRM, Recovery.LookedUp)], false);
    var w3 := At(UNSURE, [], [Recovery.Process(CONFIRM, PROVING)], false);
    assert w1 == Step(At(UNSURE, [], [], false), READ[0], targetOf);
    assert w2 == Step(w1, READ[1], targetOf);
    assert w3 == Step(w2, READ[2], targetOf);
    Three(At(UNSURE, [], [], false), READ, w1, w2, w3, targetOf);
  }

  function Both(phase: Recovery.Phase): seq<Recovery.Process> {
    [Recovery.Process(CONFIRM, PROVING), Recovery.Process(RETRY, phase)]
  }

  const APPROVE := [Submit(RETRY), Proceed(1, Clean), Proceed(1, Clean)]

  lemma ApproveRuns(targetOf: nat -> Results.Target)
    ensures Run(At(UNSURE, [], [Recovery.Process(CONFIRM, PROVING)], false), APPROVE, targetOf)
      == At(UNSURE, [], Both(READY), false)
  {
    var w := At(UNSURE, [], [Recovery.Process(CONFIRM, PROVING)], false);
    var w1, w2, w3 := At(UNSURE, [], Both(Recovery.Fresh), false), At(UNSURE, [], Both(Recovery.LookedUp), false),
      At(UNSURE, [], Both(READY), false);
    assert w1 == Step(w, APPROVE[0], targetOf);
    assert w2 == Step(w1, APPROVE[1], targetOf) by { assert w2.requests.processes
      == w1.requests.processes[1 := Both(Recovery.LookedUp)[1]]; }
    assert w3 == Step(w2, APPROVE[2], targetOf) by { assert w3.requests.processes
      == w2.requests.processes[1 := Both(READY)[1]]; }
    Three(w, APPROVE, w1, w2, w3, targetOf);
  }

  // ----- The retry succeeds -----

  const AUDIT := Recovery.AuditOf(RETRY, Some("timeout"), None)

  const RERUNS := [Proceed(1, Clean), Work(Queue.DoClaim(0, "t2", 60, 0)),
                   Elsewhere(Results.DoComplete(0, "t2", ANSWER, Results.Rotation(None, None), 0))]

  lemma RerunRuns(targetOf: nat -> Results.Target)
    ensures Run(At(UNSURE, [], Both(READY), false), RERUNS, targetOf) == At(ANSWERED, [AUDIT], Both(RETRIED), true)
  {
    var w := At(UNSURE, [], Both(READY), false);
    var w1, w2 := At(FAILED, [AUDIT], Both(RETRIED), false), At(RERUN, [AUDIT], Both(RETRIED), false);
    assert w1 == Step(w, RERUNS[0], targetOf) by {
      assert "operator"[0] == 'o' && "ticket-2"[0] == 't' && "reason"[0] == 'r';
      assert Recovery.Admissible(w.requests, 1, Recovery.BOTH);
      assert w1.requests == Recovery.Land(w.requests, 1, Clean);
    }
    assert Queue.CanClaim([FAILED], 0, 0);
    assert w2 == Step(w1, RERUNS[1], targetOf);
    var w3 := At(ANSWERED, [AUDIT], Both(RETRIED), true);
    assert w3 == Step(w2, RERUNS[2], targetOf);
    Three(w, RERUNS, w1, w2, w3, targetOf);
  }

  // ----- The evidence comes too late -----

  const CONCLUDE := [Proceed(0, Clean), Proceed(0, Clean), Proceed(0, Clean)]

  function Ends(phase: Recovery.Phase): World {
    At(ANSWERED, [AUDIT], [Recovery.Process(CONFIRM, phase), Recovery.Process(RETRY, RETRIED)], true)
  }

  lemma ConcludeRuns(targetOf: nat -> Results.Target)
    ensures Run(At(ANSWERED, [AUDIT], Both(RETRIED), true), CONCLUDE, targetOf)
      == Ends(Recovery.Done(Recovery.StateConflict))
  {
    var w := Ends(PROVING);
    assert w == At(ANSWERED, [AUDIT], Both(RETRIED), true);
    assert EvidenceFor(w.results, 0) == Recovery.Verified(0);
    var w1, w2 := Ends(Recovery.Checked(Some("timeout"), Some(0))), Ends(Recovery.Reread);
    assert w1 == Step(w, CONCLUDE[0], targetOf) by {
      assert w1.requests.processes == w.requests.processes[0 := w1.requests.processes[0]];
    }
    assert w2 == Step(w1, CONCLUDE[1], targetOf) by {
      assert w2.requests.processes == w1.requests.processes[0 := w2.requests.processes[0]];
    }
    var w3 := Ends(Recovery.Done(Recovery.StateConflict));
    assert w3 == Step(w2, CONCLUDE[2], targetOf) by {
      assert w3.requests.processes == w2.requests.processes[0 := w3.requests.processes[0]];
    }
    Three(w, CONCLUDE, w1, w2, w3, targetOf);
  }

  /**
   A confirmation that read the dispatch as uncertain finds the evidence of a retry that succeeded since, and conflicts.
   */
  lemma EvidenceCanComeTooLate(targetOf: nat -> Results.Target) returns (acts: seq<Action>)
    ensures acts == OPENING + READ + APPROVE + RERUNS + CONCLUDE
    ensures var w := Run(INITIAL, acts, targetOf);
      && EvidenceFor(w.results, 0).Verified?
      && |w.requests.processes| == 2
         && w.requests.processes[0] == Recovery.Process(CONFIRM, Recovery.Done(Recovery.StateConflict))
  {
    acts := OPENING + READ + APPROVE + RERUNS + CONCLUDE;
    OpeningRuns(targetOf);
    ReadRuns(targetOf);
    ApproveRuns(targetOf);
    RerunRuns(targetOf);
    ConcludeRuns(targetOf);
    RunAppend(INITIAL, OPENING, READ, targetOf);
    RunAppend(INITIAL, OPENING + READ, APPROVE, targetOf);
    RunAppend(INITIAL, OPENING + READ + APPROVE, RERUNS, targetOf);
    RunAppend(INITIAL, OPENING + READ + APPROVE + RERUNS, CONCLUDE, targetOf);
    assert EvidenceFor(Ends(Recovery.Done(Recovery.StateConflict)).results, 0) == Recovery.Verified(0);
  }
}
