/**
 Operators resolve uncertain dispatches. A request looks up its audit row, reads the dispatch, reads the evidence where
 its action needs some, then commits a status compare-and-swap together with a new audit row; requests and workers
 interleave between these statements.
 */
module DispatchRecovery {
  import opened Basics
  import Queue = DispatchQueue

  /** What names a decision: the unique key of the audit table. */
  datatype Key = Key(dispatch: nat, action: Queue.Verdict, reference: string)

  datatype Request = Request(key: Key, operator: string, reason: string)

  datatype Audit = Audit(
    key: Key, operator: string, reason: string, before: Queue.Status, after: Queue.Status,
    beforeError: Option<string>, evidence: Option<nat>)

  /** The dispatch response that proves a success, or why there is none. */
  datatype Evidence = Verified(response: nat) | Refused(reason: string)

  datatype Outcome =
    | Resolved(audit: nat, status: Queue.Status, idempotent: bool)
    | NotFound
    | StateConflict
    | EvidenceMissing(reason: string)
    | ReferenceConflict
    | CommitFailed

  /**
   How far a request has come: each phase ends where its next statement begins. `Proving` has read an uncertain dispatch
   and is about to read its evidence.
   */
  datatype Phase =
    | Fresh
    | LookedUp
    | Proving(error: Option<string>)
    | Checked(error: Option<string>, evidence: Option<nat>)
    | Reread
    | Done(outcome: Outcome)

  datatype Process = Process(request: Request, phase: Phase)

  /** `writers` records which process inserted each audit row, `reports` how its commit came back. */
  datatype World = World(
    table: Queue.Table, audits: seq<Audit>, processes: seq<Process>, writers: seq<nat>, reports: seq<CommitReport>)

  const INITIAL := World([], [], [], [], [])

  predicate Blank(s: string) {
    forall i :: 0 <= i < |s| ==> s[i] == ' '
  }

  /** The audit table's CHECK constraints. */
  predicate AuditChecks(a: Audit) {
    && a.before == Queue.Uncertain && a.after == Queue.AfterStatus(a.key.action)
    && (a.evidence.Some? <==> a.key.action.ConfirmSuccess?)
    && !Blank(a.operator) && !Blank(a.key.reference) && !Blank(a.reason)
  }

  function FindAudit(audits: seq<Audit>, key: Key, n: nat): (r: Option<nat>)
    requires n <= |audits|
    ensures r.Some? ==> r.value < n && audits[r.value].key == key
    ensures r.None? ==> forall i: nat :: i < n ==> audits[i].key != key
  {
    if n == 0 then None else if audits[n - 1].key == key then Some(n - 1) else FindAudit(audits, key, n - 1)
  }

  function IdempotentResult(audits: seq<Audit>, a: nat, request: Request): Outcome
    requires a < |audits|
  {
    if audits[a].operator != request.operator || audits[a].reason != request.reason then ReferenceConflict
    else Resolved(a, audits[a].after, true)
  }

  function AuditOf(request: Request, error: Option<string>, evidence: Option<nat>): Audit {
    Audit(request.key, request.operator, request.reason, Queue.Uncertain, Queue.AfterStatus(request.key.action),
          error, evidence)
  }

  // ----- Statements of a request -----

  function AtPhase(w: World, k: nat, phase: Phase): World
    requires k < |w.processes|
  {
    w.(processes := w.processes[k := w.processes[k].(phase := phase)])
  }

  function Lookup(w: World, k: nat): World
    requires k < |w.processes|
  {
    match FindAudit(w.audits, w.processes[k].request.key, |w.audits|)
    case Some(a) => AtPhase(w, k, Done(IdempotentResult(w.audits, a, w.processes[k].request)))
    case None => AtPhase(w, k, LookedUp)
  }

  /** The dispatch must be there and uncertain. */
  function Check(table: Queue.Table, request: Request): Phase {
    var d := request.key.dispatch;
    if d >= |table| then Done(NotFound)
    else if !table[d].status.Uncertain? then Done(StateConflict)
    else if request.key.action.ConfirmSuccess? then Proving(table[d].lastError)
    else Checked(table[d].lastError, None)
  }

  function Prove(error: Option<string>, evidence: Evidence): Phase {
    match evidence
    case Verified(id) => Checked(error, Some(id))
    case Refused(reason) => Done(EvidenceMissing(reason))
  }

  /** The guards of a decision: the update asks for the uncertain status, and the audit table has a unique key. */
  datatype Guards = Guards(status: bool, key: bool)

  const BOTH := Guards(true, true)

  /** What the constraints and guards of a decision ask for. */
  predicate Admissible(w: World, k: nat, g: Guards)
    requires k < |w.processes| && w.processes[k].phase.Checked?
  {
    var p := w.processes[k];
    var d := p.request.key.dispatch;
    && d < |w.table| && (g.status ==> w.table[d].status.Uncertain?)
    && (g.key ==> FindAudit(w.audits, p.request.key, |w.audits|).None?)
    && AuditChecks(AuditOf(p.request, p.phase.error, p.phase.evidence))
  }

  /** The decision lands: status and audit row change together. The request learns of it if the commit reports back. */
  function Land(w: World, k: nat, report: CommitReport): World
    requires k < |w.processes| && w.processes[k].phase.Checked? && w.processes[k].request.key.dispatch < |w.table|
  {
    var p := w.processes[k];
    var d := p.request.key.dispatch;
    var audit := AuditOf(p.request, p.phase.error, p.phase.evidence);
    var outcome := if report.Clean? then Resolved(|w.audits|, audit.after, false) else CommitFailed;
    World(w.table[d := Queue.Decided(w.table[d], p.request.key.action)], w.audits + [audit],
          w.processes[k := p.(phase := Done(outcome))], w.writers + [k], w.reports + [report])
  }

  /** The update and the insert of one transaction, with the guards in force; `report` is how it comes back. */
  function CommitWith(w: World, k: nat, report: CommitReport, g: Guards): World
    requires k < |w.processes| && w.processes[k].phase.Checked?
  {
    if report.LostAndRaised? then AtPhase(w, k, Done(CommitFailed))
    else if Admissible(w, k, g) then Land(w, k, report)
    else AtPhase(w, k, Reread)
  }

  function Commit(w: World, k: nat, report: CommitReport): World
    requires k < |w.processes| && w.processes[k].phase.Checked?
  {
    CommitWith(w, k, report, BOTH)
  }

  function Replay(w: World, k: nat): World
    requires k < |w.processes|
  {
    match FindAudit(w.audits, w.processes[k].request.key, |w.audits|)
    case Some(a) => AtPhase(w, k, Done(IdempotentResult(w.audits, a, w.processes[k].request)))
    case None => AtPhase(w, k, Done(StateConflict))
  }

  /** The next statement of a request; a crash is a request that takes no further step. */
  function AdvanceWith(w: World, k: nat, evidence: Evidence, report: CommitReport, g: Guards): World {
    if k >= |w.processes| then w
    else match w.processes[k].phase
      case Fresh => Lookup(w, k)
      case LookedUp => AtPhase(w, k, Check(w.table, w.processes[k].request))
      case Proving(error) => AtPhase(w, k, Prove(error, evidence))
      case Checked(_, _) => CommitWith(w, k, report, g)
      case Reread => Replay(w, k)
      case Done(_) => w
  }

  function Advance(w: World, k: nat, evidence: Evidence, report: CommitReport): World {
    AdvanceWith(w, k, evidence, report, BOTH)
  }

  /** `evidence` is what a request finds if it reads evidence now, `report` how its commit comes back if it commits. */
  datatype Action =
    | Submit(request: Request)
    | Proceed(process: nat, evidence: Evidence, report: CommitReport)
    | Work(action: Queue.Action)

  /** Workers and admission act on the dispatch table; only requests here decide uncertain records. */
  function StepWith(w: World, act: Action, retryLimit: nat, g: Guards): World {
    match act
    case Submit(request) => w.(processes := w.processes + [Process(request, Fresh)])
    case Proceed(k, evidence, report) => AdvanceWith(w, k, evidence, report, g)
    case Work(a) => if a.DoResolve? then w else w.(table := Queue.Step(w.table, a, retryLimit))
  }

  function RunWith(w: World, acts: seq<Action>, retryLimit: nat, g: Guards): World
    decreases |acts|
  {
    if acts == [] then w else RunWith(StepWith(w, acts[0], retryLimit, g), acts[1..], retryLimit, g)
  }

  /** The code: both guards are in force. */
  function Step(w: World, act: Action, retryLimit: nat): World {
    StepWith(w, act, retryLimit, BOTH)
  }

  function Run(w: World, acts: seq<Action>, retryLimit: nat): World {
    RunWith(w, acts, retryLimit, BOTH)
  }

  lemma {:induction false} RunSnoc(w: World, acts: seq<Action>, act: Action, retryLimit: nat)
    ensures Run(w, acts + [act], retryLimit) == Step(Run(w, acts, retryLimit), act, retryLimit)
    decreases |acts|
  {
    if acts == [] {
      assert acts + [act] == [act] && [act][1..] == [];
      assert Run(w, [act], retryLimit) == RunWith(Step(w, act, retryLimit), [act][1..], retryLimit, BOTH);
    } else {
      assert (acts + [act])[1..] == acts[1..] + [act];
      RunSnoc(Step(w, acts[0], retryLimit), acts[1..], act, retryLimit);
    }
  }

  // ----- What every run keeps -----

  ghost predicate UniqueKeys(audits: seq<Audit>) {
    forall i: nat, j: nat :: i < j < |audits| ==> audits[i].key != audits[j].key
  }

  /** The evidence of a checked request is present exactly when its action demands it. */
  predicate ProcessOk(w: World, p: Process) {
    && (p.phase.Checked? ==> (p.phase.evidence.Some? <==> p.request.key.action.ConfirmSuccess?))
    && (p.phase.Proving? ==> p.request.key.action.ConfirmSuccess?)
    && (p.phase.Done? && p.phase.outcome.Resolved? ==>
          var a := p.phase.outcome.audit;
          && a < |w.audits| && w.audits[a].key == p.request.key
          && w.audits[a].operator == p.request.operator && w.audits[a].reason == p.request.reason
          && p.phase.outcome.status == w.audits[a].after)
  }

  predicate Creates(p: Process) {
    p.phase.Done? && p.phase.outcome.Resolved? && !p.phase.outcome.idempotent
  }

  /** A request reports having created an audit row exactly when it wrote it and its commit reported back. */
  ghost predicate WritersOk(w: World) {
    && |w.writers| == |w.reports| == |w.audits|
    && (forall a: nat :: a < |w.audits| ==>
          && w.writers[a] < |w.processes| && w.processes[w.writers[a]].phase.Done?
          && (w.reports[a].Clean? ==> w.processes[w.writers[a]].phase == Done(Resolved(a, w.audits[a].after, false))))
    && (forall k: nat :: k < |w.processes| && Creates(w.processes[k]) ==>
          var a := w.processes[k].phase.outcome.audit;
          a < |w.audits| && w.writers[a] == k && w.reports[a].Clean?)
  }

  ghost predicate Inv(w: World) {
    && UniqueKeys(w.audits)
    && (forall a: nat :: a < |w.audits| ==> AuditChecks(w.audits[a]))
    && (forall k: nat :: k < |w.processes| ==> ProcessOk(w, w.processes[k]))
    && WritersOk(w)
  }

  /** A request that does not create a row moves on alone. */
  lemma MoveKeeps(w: World, k: nat, phase: Phase)
    requires Inv(w) && k < |w.processes| && !w.processes[k].phase.Done?
    requires ProcessOk(w, w.processes[k].(phase := phase)) && !Creates(w.processes[k].(phase := phase))
    ensures Inv(AtPhase(w, k, phase))
  {
    var w' := AtPhase(w, k, phase);
    forall j: nat | j < |w'.processes| ensures ProcessOk(w', w'.processes[j]) {
      assert ProcessOk(w, w.processes[j]);
    }
    assert forall a: nat :: a < |w.audits| ==> w.writers[a] != k;
  }

  lemma LandKeepsProcesses(w: World, k: nat, report: CommitReport, w': World)
    requires Inv(w) && k < |w.processes| && w.processes[k].phase.Checked?
      && w.processes[k].request.key.dispatch < |w.table|
    requires w' == Land(w, k, report)
    ensures forall j: nat :: j < |w'.processes| ==> ProcessOk(w', w'.processes[j])
  {
    forall j: nat | j < |w'.processes| ensures ProcessOk(w', w'.processes[j]) {
      assert ProcessOk(w, w.processes[j]);
    }
  }

  lemma LandKeepsWriters(w: World, k: nat, report: CommitReport, w': World)
    requires Inv(w) && k < |w.processes| && w.processes[k].phase.Checked?
      && w.processes[k].request.key.dispatch < |w.table|
    requires w' == Land(w, k, report)
    ensures WritersOk(w')
  {
    assert forall a: nat :: a < |w.audits| ==> w.writers[a] != k && w'.audits[a] == w.audits[a];
  }

  lemma CommitKeeps(w: World, k: nat, report: CommitReport)
    requires Inv(w) && k < |w.processes| && w.processes[k].phase.Checked?
    ensures Inv(Commit(w, k, report))
  {
    if report.LostAndRaised? {
      MoveKeeps(w, k, Done(CommitFailed));
    } else if !Admissible(w, k, BOTH) {
      MoveKeeps(w, k, Reread);
    } else {
      LandKeepsProcesses(w, k, report, Land(w, k, report));
      LandKeepsWriters(w, k, report, Land(w, k, report));
    }
  }

  lemma AdvanceKeeps(w: World, k: nat, evidence: Evidence, report: CommitReport)
    requires Inv(w)
    ensures Inv(Advance(w, k, evidence, report))
  {
    if k < |w.processes| && !w.processes[k].phase.Done? {
      if w.processes[k].phase.Checked? {
        CommitKeeps(w, k, report);
      } else {
        var phase := Advance(w, k, evidence, report).processes[k].phase;
        ReadsOnly(w, k, evidence, report, phase);
        MoveKeeps(w, k, phase);
      }
    }
  }

  /** Every statement but the commit only moves its request, and what it answers is in the audit table. */
  lemma ReadsOnly(w: World, k: nat, evidence: Evidence, report: CommitReport, phase: Phase)
    requires Inv(w) && k < |w.processes| && !w.processes[k].phase.Done? && !w.processes[k].phase.Checked?
    requires phase == Advance(w, k, evidence, report).processes[k].phase
    ensures Advance(w, k, evidence, report) == AtPhase(w, k, phase)
    ensures ProcessOk(w, w.processes[k].(phase := phase)) && !Creates(w.processes[k].(phase := phase))
  {
    assert ProcessOk(w, w.processes[k]);
  }

  lemma StepKeeps(w: World, act: Action, retryLimit: nat)
    requires Inv(w)
    ensures Inv(Step(w, act, retryLimit))
  {
    var w' := Step(w, act, retryLimit);
    if act.Proceed? {
      AdvanceKeeps(w, act.process, act.evidence, act.report);
    } else {
      forall k: nat | k < |w'.processes| ensures ProcessOk(w', w'.processes[k]) {
        if k < |w.processes| { assert ProcessOk(w, w.processes[k]); }
      }
    }
  }

  lemma {:induction false} RunKeeps(w: World, acts: seq<Action>, retryLimit: nat)
    requires Inv(w)
    ensures Inv(Run(w, acts, retryLimit))
    decreases |acts|
  {
    if acts != [] {
      StepKeeps(w, acts[0], retryLimit);
      RunKeeps(Step(w, acts[0], retryLimit), acts[1..], retryLimit);
    }
  }

  // ----- One audit row per exit from uncertain -----

  predicate Exits(t: Queue.Table, t': Queue.Table, d: nat) {
    d < |t| && t[d].status.Uncertain? && !(d < |t'| && t'[d].status.Uncertain?)
  }

  /** How often dispatch `d` leaves the uncertain status along a run. */
  function CountExits(w: World, acts: seq<Action>, retryLimit: nat, g: Guards, d: nat): nat
    decreases |acts|
  {
    if acts == [] then 0
    else
      var w' := StepWith(w, acts[0], retryLimit, g);
      (if Exits(w.table, w'.table, d) then 1 else 0) + CountExits(w', acts[1..], retryLimit, g, d)
  }

  function CountAudits(audits: seq<Audit>, d: nat): nat {
    if audits == [] then 0
    else (if audits[|audits| - 1].key.dispatch == d then 1 else 0) + CountAudits(audits[..|audits| - 1], d)
  }

  lemma WorkersNeverExit(t: Queue.Table, a: Queue.Action, retryLimit: nat, d: nat)
    requires !a.DoResolve?
    ensures !Exits(t, Queue.Step(t, a, retryLimit), d)
  {
    Queue.StepFinishes(t, a, retryLimit);
  }

  lemma StepCounts(w: World, act: Action, retryLimit: nat, g: Guards, d: nat)
    requires g.status
    ensures var w' := StepWith(w, act, retryLimit, g);
      CountAudits(w'.audits, d) == CountAudits(w.audits, d) + (if Exits(w.table, w'.table, d) then 1 else 0)
  {
    var w' := StepWith(w, act, retryLimit, g);
    if act.Work? {
      if !act.action.DoResolve? { WorkersNeverExit(w.table, act.action, retryLimit, d); }
    } else if w'.audits != w.audits {
      assert w'.audits[..|w'.audits| - 1] == w.audits;
    }
  }

  /** Over every interleaving, a dispatch has left the uncertain status exactly as often as it has audit rows. */
  lemma {:induction false} ExitsEqualAudits(w: World, acts: seq<Action>, retryLimit: nat, g: Guards, d: nat)
    requires g.status
    ensures CountAudits(RunWith(w, acts, retryLimit, g).audits, d)
      == CountAudits(w.audits, d) + CountExits(w, acts, retryLimit, g, d)
    decreases |acts|
  {
    if acts != [] {
      StepCounts(w, acts[0], retryLimit, g, d);
      ExitsEqualAudits(StepWith(w, acts[0], retryLimit, g), acts[1..], retryLimit, g, d);
    }
  }

  // ----- Identical requests -----

  /** Requests with one key that succeed name the same audit row, agree with it, and at most one of them created it. */
  lemma SameReferenceSameAudit(acts: seq<Action>, retryLimit: nat, j: nat, k: nat)
    requires var w := Run(INITIAL, acts, retryLimit);
      && j < |w.processes| && k < |w.processes| && w.processes[j].request.key == w.processes[k].request.key
      && w.processes[j].phase.Done? && w.processes[j].phase.outcome.Resolved?
      && w.processes[k].phase.Done? && w.processes[k].phase.outcome.Resolved?
    ensures var w := Run(INITIAL, acts, retryLimit);
      var x, y := w.processes[j].phase.outcome, w.processes[k].phase.outcome;
      && x.audit == y.audit < |w.audits| && x.status == y.status == Queue.AfterStatus(w.processes[j].request.key.action)
      && w.processes[j].request == w.processes[k].request
      && AuditChecks(w.audits[x.audit])
      && (j != k ==> x.idempotent || y.idempotent)
  {
    var w := Run(INITIAL, acts, retryLimit);
    RunKeeps(INITIAL, acts, retryLimit);
    assert ProcessOk(w, w.processes[j]) && ProcessOk(w, w.processes[k]);
  }

  /**
   No audit row has two requests that report having created it, and it has one exactly when the commit that wrote it
   reported back.
   */
  lemma OneCreatorIff(acts: seq<Action>, retryLimit: nat, a: nat)
    requires a < |Run(INITIAL, acts, retryLimit).audits|
    ensures var w := Run(INITIAL, acts, retryLimit);
      && |w.reports| == |w.audits|
      && ((exists k: nat :: CreatedBy(w, a, k)) <==> w.reports[a].Clean?)
      && (forall j: nat, k: nat :: CreatedBy(w, a, j) && CreatedBy(w, a, k) ==> j == k)
  {
    var w := Run(INITIAL, acts, retryLimit);
    RunKeeps(INITIAL, acts, retryLimit);
    if w.reports[a].Clean? { assert CreatedBy(w, a, w.writers[a]); }
  }

  predicate CreatedBy(w: World, a: nat, k: nat) {
    k < |w.processes| && Creates(w.processes[k]) && w.processes[k].phase.outcome.audit == a
  }

  /**
   A decision already audited is never applied again: no statement of a request for it changes dispatches or audits.
   */
  lemma ReplayChangesNothing(w: World, k: nat, evidence: Evidence, report: CommitReport)
    requires k < |w.processes| && FindAudit(w.audits, w.processes[k].request.key, |w.audits|).Some?
    ensures Advance(w, k, evidence, report).table == w.table && Advance(w, k, evidence, report).audits == w.audits
  {
  }

  /** A request made after its decision was audited ends at once: with that audit, or refused if its details changed. */
  lemma LaterRequestReplays(acts: seq<Action>, retryLimit: nat, k: nat, a: nat, evidence: Evidence,
                            report: CommitReport)
    requires var w := Run(INITIAL, acts, retryLimit);
      && k < |w.processes| && w.processes[k].phase.Fresh?
      && a < |w.audits| && w.audits[a].key == w.processes[k].request.key
    ensures var w := Run(INITIAL, acts, retryLimit);
      var r := w.processes[k].request;
      Advance(w, k, evidence, report).processes[k].phase == Done(
        if w.audits[a].operator == r.operator && w.audits[a].reason == r.reason
        then Resolved(a, Queue.AfterStatus(r.key.action), true) else ReferenceConflict)
  {
    RunKeeps(INITIAL, acts, retryLimit);
    assert AuditChecks(Run(INITIAL, acts, retryLimit).audits[a]);
  }

  /** Request `k` takes this many steps and nobody else does; what it reads and commits is undisturbed. */
  function Alone(w: World, k: nat, evidence: Evidence, steps: nat): World
    decreases steps
  {
    if steps == 0 then w else Alone(Advance(w, k, evidence, Clean), k, evidence, steps - 1)
  }

  lemma DoneStays(w: World, k: nat, evidence: Evidence, steps: nat)
    requires k < |w.processes| && w.processes[k].phase.Done?
    ensures Alone(w, k, evidence, steps) == w
  {
  }

  /**
   A request that looked for its audit before a twin wrote it reaches the twin's audit exactly when the dispatch still
   reads as uncertain, with evidence where needed; otherwise it reports a conflict although the decision is recorded.
   */
  lemma EarlyTwinReplaysIff(w: World, k: nat, a: nat, evidence: Evidence)
    requires Inv(w) && k < |w.processes| && w.processes[k].phase.LookedUp?
    requires a < |w.audits| && w.audits[a].key == w.processes[k].request.key
    requires w.audits[a].operator == w.processes[k].request.operator
      && w.audits[a].reason == w.processes[k].request.reason
    ensures k < |Alone(w, k, evidence, 4).processes|
    ensures var r := w.processes[k].request;
      Alone(w, k, evidence, 4).processes[k].phase == Done(Resolved(a, w.audits[a].after, true)) <==>
      (r.key.dispatch < |w.table| && w.table[r.key.dispatch].status.Uncertain?
       && (r.key.action.ConfirmSuccess? ==> evidence.Verified?))
  {
    var w1 := Advance(w, k, evidence, Clean);
    assert w1.audits == w.audits && w1.processes[k].request == w.processes[k].request;
    if w1.processes[k].phase.Done? {
      DoneStays(w1, k, evidence, 3);
    } else if w1.processes[k].phase.Checked? {
      CheckedReplays(w1, k, a, evidence);
      DoneStays(Alone(w1, k, evidence, 2), k, evidence, 1);
      AloneAdds(w1, k, evidence, 2, 1);
    } else {
      var w2 := Advance(w1, k, evidence, Clean);
      assert w2.audits == w.audits && w2.processes[k].request == w.processes[k].request;
      if w2.processes[k].phase.Done? { DoneStays(w2, k, evidence, 2); } else { CheckedReplays(w2, k, a, evidence); }
    }
  }

  lemma {:induction false} AloneAdds(w: World, k: nat, evidence: Evidence, m: nat, n: nat)
    ensures Alone(w, k, evidence, m + n) == Alone(Alone(w, k, evidence, m), k, evidence, n)
    decreases m
  {
    if m > 0 { AloneAdds(Advance(w, k, evidence, Clean), k, evidence, m - 1, n); }
  }

  /** The unique key refuses a decision that is already recorded, and the second look finds the record. */
  lemma CheckedReplays(w: World, k: nat, a: nat, evidence: Evidence)
    requires k < |w.processes| && w.processes[k].phase.Checked? && UniqueKeys(w.audits)
    requires a < |w.audits| && w.audits[a].key == w.processes[k].request.key
    requires w.audits[a].operator == w.processes[k].request.operator
      && w.audits[a].reason == w.processes[k].request.reason
    ensures k < |Alone(w, k, evidence, 2).processes|
    ensures Alone(w, k, evidence, 2).processes[k].phase == Done(Resolved(a, w.audits[a].after, true))
  {
    var w1 := Advance(w, k, evidence, Clean);
    assert w1 == AtPhase(w, k, Reread);
    assert Alone(w, k, evidence, 2) == Advance(w1, k, evidence, Clean);
  }

  // ----- What was decided is what the dispatch is -----

  /** A dispatch that was buried or confirmed is dead or done for good. */
  ghost predicate DecisionsHold(w: World) {
    forall a: nat :: a < |w.audits| ==> DecisionHolds(w.table, w.audits[a])
  }

  predicate DecisionHolds(table: Queue.Table, a: Audit) {
    && a.key.dispatch < |table|
    && (a.key.action.MarkDead? ==> table[a.key.dispatch].status == Queue.Dead)
    && (a.key.action.ConfirmSuccess? ==> table[a.key.dispatch].status == Queue.Success)
  }

  lemma TableKeepsDecisions(w: World, table: Queue.Table)
    requires DecisionsHold(w) && Queue.Finished(w.table, table)
    ensures DecisionsHold(w.(table := table))
  {
    forall a: nat | a < |w.audits| ensures DecisionHolds(table, w.audits[a]) {
      assert DecisionHolds(w.table, w.audits[a]);
    }
  }

  lemma LandKeepsDecisions(w: World, k: nat, report: CommitReport, w': World)
    requires DecisionsHold(w) && k < |w.processes| && w.processes[k].phase.Checked?
    requires Admissible(w, k, BOTH) && w' == Land(w, k, report)
    ensures DecisionsHold(w')
  {
    forall a: nat | a < |w'.audits| ensures DecisionHolds(w'.table, w'.audits[a]) {
      if a < |w.audits| { assert DecisionHolds(w.table, w.audits[a]); }
    }
  }

  lemma StepKeepsDecisions(w: World, act: Action, retryLimit: nat)
    requires DecisionsHold(w)
    ensures DecisionsHold(Step(w, act, retryLimit))
  {
    match act
    case Submit(r) =>
    case Work(a) =>
      if !a.DoResolve? {
        Queue.StepFinishes(w.table, a, retryLimit);
        TableKeepsDecisions(w, Queue.Step(w.table, a, retryLimit));
      }
    case Proceed(k, evidence, report) =>
      if k < |w.processes| && w.processes[k].phase.Checked? && !report.LostAndRaised? && Admissible(w, k, BOTH) {
        LandKeepsDecisions(w, k, report, Step(w, act, retryLimit));
      }
  }

  lemma {:induction false} RunKeepsDecisions(w: World, acts: seq<Action>, retryLimit: nat)
    requires DecisionsHold(w)
    ensures DecisionsHold(Run(w, acts, retryLimit))
    decreases |acts|
  {
    if acts != [] {
      StepKeepsDecisions(w, acts[0], retryLimit);
      RunKeepsDecisions(Step(w, acts[0], retryLimit), acts[1..], retryLimit);
    }
  }

  /**
   Over every run, in the state after it and in all later ones: the dispatch of a mark_dead audit is dead, that of a
   confirm_success audit is done, and neither can be claimed again.
   */
  lemma DecisionIsFinal(acts: seq<Action>, more: seq<Action>, limit: nat, a: nat)
    requires a < |Run(INITIAL, acts, limit).audits| && !Run(INITIAL, acts, limit).audits[a].key.action.RetryApproved?
    ensures var key, later := Run(INITIAL, acts, limit).audits[a].key, Run(Run(INITIAL, acts, limit), more, limit);
      && key.dispatch < |later.table|
      && later.table[key.dispatch].status == (if key.action.MarkDead? then Queue.Dead else Queue.Success)
      && !Queue.CanClaim(later.table, key.dispatch, limit)
  {
    var w := Run(INITIAL, acts, limit);
    RunKeepsDecisions(INITIAL, acts, limit);
    RunKeepsDecisions(w, more, limit);
    RunKeepsAudits(w, more, limit);
    assert DecisionHolds(Run(w, more, limit).table, Run(w, more, limit).audits[a]);
  }

  /** Audit rows are only added. */
  lemma {:induction false} RunKeepsAudits(w: World, acts: seq<Action>, retryLimit: nat)
    ensures w.audits <= Run(w, acts, retryLimit).audits
    decreases |acts|
  {
    if acts != [] {
      StepKeepsAudits(w, acts[0], retryLimit);
      RunKeepsAudits(Step(w, acts[0], retryLimit), acts[1..], retryLimit);
    }
  }

  lemma StepKeepsAudits(w: World, act: Action, retryLimit: nat)
    ensures w.audits <= Step(w, act, retryLimit).audits
  {
  }

  /**
   A statement that adds an audit row moves exactly its dispatch, from uncertain to the status the audit names: a retry
   is approved by hand and keeps its error, a success forgets it, and everything else about the dispatch stays.
   */
  lemma DecisionMovesItsDispatch(w: World, act: Action, limit: nat)
    requires Step(w, act, limit).audits != w.audits
    ensures var w' := Step(w, act, limit);
      && |w'.audits| == |w.audits| + 1 && |w'.table| == |w.table|
      && var audit := w'.audits[|w.audits|];
      var d := audit.key.dispatch;
      && d < |w.table| && w.table[d].status == Queue.Uncertain
      && (forall e: nat :: e < |w.table| && e != d ==> w'.table[e] == w.table[e])
      && w'.table[d] == w.table[d].(status := audit.after, manualRetry := audit.after == Queue.Failed,
                                    lastError := if audit.after == Queue.Success then None else w.table[d].lastError)
      && audit.after == (match audit.key.action
                         case RetryApproved => Queue.Failed
                         case MarkDead => Queue.Dead
                         case ConfirmSuccess => Queue.Success)
  {
  }

  // ----- A request that nobody disturbs -----

  /** What a request is told, by the first thing that stands in its way. */
  ghost predicate Answer(w: World, r: Request, evidence: Evidence, outcome: Outcome) {
    if exists a: nat :: a < |w.audits| && w.audits[a].key == r.key then
      exists a: nat :: a < |w.audits| && w.audits[a].key == r.key
        && outcome == (if w.audits[a].operator == r.operator && w.audits[a].reason == r.reason
                       then Resolved(a, w.audits[a].after, true) else ReferenceConflict)
    else if r.key.dispatch >= |w.table| then outcome == NotFound
    else if w.table[r.key.dispatch].status != Queue.Uncertain then outcome == StateConflict
    else if r.key.action.ConfirmSuccess? && evidence.Refused? then outcome == EvidenceMissing(evidence.reason)
    else if Blank(r.operator) || Blank(r.key.reference) || Blank(r.reason) then outcome == StateConflict
    else outcome == Resolved(|w.audits|, Queue.AfterStatus(r.key.action), false)
  }

  /** An undisturbed request ends within five statements, with exactly the answer its situation calls for. */
  lemma UndisturbedRequestAnswers(w: World, k: nat, evidence: Evidence)
    requires Inv(w) && k < |w.processes| && w.processes[k].phase.Fresh?
    ensures var w' := Alone(w, k, evidence, 5);
      && k < |w'.processes| && w'.processes[k].phase.Done?
      && Answer(w, w.processes[k].request, evidence, w'.processes[k].phase.outcome)
  {
    var r := w.processes[k].request;
    var w1 := Advance(w, k, evidence, Clean);
    if w1.processes[k].phase.Done? {
      var a := FindAudit(w.audits, r.key, |w.audits|).value;
      assert w.audits[a].key == r.key;
      DoneStays(w1, k, evidence, 4);
    } else {
      AfterLookup(w1, k, evidence);
    }
  }

  lemma AfterLookup(w: World, k: nat, evidence: Evidence)
    requires k < |w.processes| && w.processes[k].phase.LookedUp?
    requires FindAudit(w.audits, w.processes[k].request.key, |w.audits|).None?
    ensures var w' := Alone(w, k, evidence, 4);
      && k < |w'.processes| && w'.processes[k].phase.Done?
      && Answer(w, w.processes[k].request, evidence, w'.processes[k].phase.outcome)
  {
    var w1 := Advance(w, k, evidence, Clean);
    if w1.processes[k].phase.Done? {
      DoneStays(w1, k, evidence, 3);
    } else if w1.processes[k].phase.Checked? {
      AfterCheck(w1, k, evidence);
      DoneStays(Alone(w1, k, evidence, 2), k, evidence, 1);
      AloneAdds(w1, k, evidence, 2, 1);
    } else {
      var w2 := Advance(w1, k, evidence, Clean);
      if w2.processes[k].phase.Done? { DoneStays(w2, k, evidence, 2); } else { AfterCheck(w2, k, evidence); }
    }
  }

  lemma AfterCheck(w: World, k: nat, evidence: Evidence)
    requires k < |w.processes| && w.processes[k].phase.Checked?
    requires var r := w.processes[k].request;
      && FindAudit(w.audits, r.key, |w.audits|).None? && r.key.dispatch < |w.table|
      && w.table[r.key.dispatch].status == Queue.Uncertain
      && (w.processes[k].phase.evidence.Some? <==> r.key.action.ConfirmSuccess?)
    ensures var r, w' := w.processes[k].request, Alone(w, k, evidence, 2);
      && k < |w'.processes|
      && w'.processes[k].phase == Done(
           if Blank(r.operator) || Blank(r.key.reference) || Blank(r.reason) then StateConflict
           else Resolved(|w.audits|, Queue.AfterStatus(r.key.action), false))
  {
    var w1 := Advance(w, k, evidence, Clean);
    assert Alone(w, k, evidence, 2) == Advance(w1, k, evidence, Clean);
    if w1.processes[k].phase.Done? { DoneStays(w1, k, evidence, 1); }
  }

  // ----- Confirmed successes need evidence -----

  /** Evidence is only shown of a dispatch that has succeeded. */
  predicate Honest(w: World, act: Action) {
    act.Proceed? && act.process < |w.processes| && w.processes[act.process].phase.Proving? && act.evidence.Verified? ==>
      var d := w.processes[act.process].request.key.dispatch;
      d < |w.table| && w.table[d].status.Success?
  }

  predicate HonestRun(w: World, acts: seq<Action>, retryLimit: nat)
    decreases |acts|
  {
    acts == [] || (Honest(w, acts[0]) && HonestRun(Step(w, acts[0], retryLimit), acts[1..], retryLimit))
  }

  predicate Confirms(p: Process) {
    p.request.key.action.ConfirmSuccess?
  }

  /** A confirmation that has its evidence has it of a dispatch that is no longer uncertain. */
  ghost predicate Unconfirmed(w: World) {
    && (forall a: nat :: a < |w.audits| ==> !w.audits[a].key.action.ConfirmSuccess?)
    && (forall k: nat :: k < |w.processes| && Confirms(w.processes[k]) ==> Pending(w.table, w.processes[k]))
  }

  predicate Pending(table: Queue.Table, p: Process) {
    && (p.phase.Checked? ==> p.request.key.dispatch < |table| && table[p.request.key.dispatch].status.Success?)
    && (p.phase.Done? ==> !p.phase.outcome.Resolved?)
  }

  lemma HonestAdvance(w: World, k: nat, evidence: Evidence, report: CommitReport, w': World)
    requires Unconfirmed(w) && Honest(w, Proceed(k, evidence, report)) && k < |w.processes|
    requires w' == Advance(w, k, evidence, report)
    ensures Unconfirmed(w')
  {
    var p := w.processes[k];
    if p.phase.Checked? && !report.LostAndRaised? && Admissible(w, k, BOTH) {
      assert !Confirms(p);
      LandStaysUnconfirmed(w, k, report, w');
    } else if Confirms(p) {
      assert FindAudit(w.audits, p.request.key, |w.audits|).None?;
    }
  }

  lemma LandStaysUnconfirmed(w: World, k: nat, report: CommitReport, w': World)
    requires Unconfirmed(w) && k < |w.processes| && w.processes[k].phase.Checked? && !Confirms(w.processes[k])
    requires Admissible(w, k, BOTH) && w' == Land(w, k, report)
    ensures Unconfirmed(w')
  {
    forall j: nat | j < |w'.processes| && Confirms(w'.processes[j]) ensures Pending(w'.table, w'.processes[j]) {
      assert Pending(w.table, w.processes[j]);
    }
  }

  lemma HonestStep(w: World, act: Action, retryLimit: nat)
    requires Unconfirmed(w) && Honest(w, act)
    ensures Unconfirmed(Step(w, act, retryLimit))
  {
    match act
    case Submit(r) =>
    case Proceed(k, evidence, report) =>
      if k < |w.processes| { HonestAdvance(w, k, evidence, report, Step(w, act, retryLimit)); }
    case Work(a) => if !a.DoResolve? { Queue.StepFinishes(w.table, a, retryLimit); }
  }

  /** If evidence is only ever shown of a dispatch that has succeeded, no run audits or reports a confirmed success. */
  lemma {:induction false} HonestEvidenceConfirmsNothing(w: World, acts: seq<Action>, retryLimit: nat)
    requires Unconfirmed(w) && HonestRun(w, acts, retryLimit)
    ensures Unconfirmed(Run(w, acts, retryLimit))
    decreases |acts|
  {
    if acts != [] {
      HonestStep(w, acts[0], retryLimit);
      HonestEvidenceConfirmsNothing(Step(w, acts[0], retryLimit), acts[1..], retryLimit);
    }
  }

  // ----- The store -----

  /** DispatchRecoveryStore over the shared tables; `log` is the run that produced them. */
  class DispatchRecoveryStore {
    const retryLimit: nat
    var table: Queue.Table
    var audits: seq<Audit>
    ghost var processes: seq<Process>
    ghost var writers: seq<nat>
    ghost var reports: seq<CommitReport>
    ghost var log: seq<Action>

    constructor (retryLimit: nat)
      ensures Valid() && log == [] && this.retryLimit == retryLimit
    {
      this.retryLimit := retryLimit;
      table, audits, processes, writers, reports, log := [], [], [], [], [], [];
    }

    ghost function Tables(): World
      reads this
    {
      World(table, audits, processes, writers, reports)
    }

    ghost predicate Valid()
      reads this
    {
      Tables() == Run(INITIAL, log, retryLimit)
    }

    /** Commits the bookkeeping of one action whose effect on the tables has been written. */
    ghost method Record(act: Action, before: World)
      requires before == Run(INITIAL, log, retryLimit)
      requires table == Step(before, act, retryLimit).table && audits == Step(before, act, retryLimit).audits
      modifies this`processes, this`writers, this`reports, this`log
      ensures Valid() && log == old(log) + [act] && Tables() == Step(before, act, retryLimit)
    {
      RunSnoc(INITIAL, log, act, retryLimit);
      var w := Step(before, act, retryLimit);
      processes, writers, reports := w.processes, w.writers, w.reports;
      log := log + [act];
    }

    /** Workers and other requests commit between two statements of request `me`. */
    method Others(ghost me: nat)
      requires Valid() && me < |processes|
      modifies this
      ensures Valid() && old(log) <= log && me < |processes| && processes[me] == old(processes[me])
    {
    }

    /** The audit row of a decision, by its unique key. */
    method AuditFor(key: Key) returns (found: Option<nat>)
      ensures found == FindAudit(audits, key, |audits|)
    {
      var n: nat := |audits|;
      while n > 0 && audits[n - 1].key != key
        invariant n <= |audits| && FindAudit(audits, key, |audits|) == FindAudit(audits, key, n)
      {
        n := n - 1;
      }
      found := if n == 0 then None else Some(n - 1);
    }

    /** A request from its first statement to its answer, with anything happening in between. */
    method Resolve(request: Request, evidence: Evidence) returns (outcome: Outcome, ghost me: nat)
      requires Valid()
      modifies this
      ensures Valid() && old(log) <= log
      ensures me < |processes| && processes[me] == Process(request, Done(outcome))
      ensures outcome.Resolved? ==>
        && outcome.audit < |audits| && audits[outcome.audit].key == request.key && AuditChecks(audits[outcome.audit])
        && audits[outcome.audit].operator == request.operator && audits[outcome.audit].reason == request.reason
        && outcome.status == Queue.AfterStatus(request.key.action)
    {
      me := |processes|;
      Record(Submit(request), Tables());
      Others(me);
      var existing := AuditFor(request.key);
      Record(Proceed(me, evidence, Clean), Tables());
      if existing.Some? {
        outcome := IdempotentResult(audits, existing.value, request);
      } else {
        outcome := CheckAndCommit(request, evidence, me);
      }
      Explain(me);
    }

    /** No audit was found: the dispatch must be uncertain, and proven where the action demands it. */
    method CheckAndCommit(request: Request, evidence: Evidence, ghost me: nat) returns (outcome: Outcome)
      requires Valid() && me < |processes| && processes[me] == Process(request, LookedUp)
      modifies this
      ensures Valid() && old(log) <= log && me < |processes| && processes[me] == Process(request, Done(outcome))
    {
      Others(me);
      var phase := Check(table, request);
      Record(Proceed(me, evidence, Clean), Tables());
      if phase.Proving? {
        Others(me);
        phase := Prove(phase.error, evidence);
        Record(Proceed(me, evidence, Clean), Tables());
      }
      if phase.Done? {
        outcome := phase.outcome;
      } else {
        Others(me);
        outcome := CommitDecision(request, phase.error, phase.evidence, evidence, me);
      }
    }

    /** The transaction of a decision and, when it is refused, the second look at the audit table. */
    method CommitDecision(request: Request, error: Option<string>, proof: Option<nat>, evidence: Evidence,
                          ghost me: nat)
      returns (outcome: Outcome)
      requires Valid() && me < |processes| && processes[me] == Process(request, Checked(error, proof))
      modifies this
      ensures Valid() && old(log) <= log
      ensures me < |processes| && processes[me] == Process(request, Done(outcome))
    {
      var next := |audits|;
      var report: CommitReport := *;
      var decided := Decide(request, error, proof, evidence, report, me);
      if report.LostAndRaised? || (decided && !report.Clean?) {
        outcome := CommitFailed;
      } else if decided {
        outcome := Resolved(next, Queue.AfterStatus(request.key.action), false);
      } else {
        Others(me);
        var replay := AuditFor(request.key);
        outcome := if replay.Some? then IdempotentResult(audits, replay.value, request) else StateConflict;
        Record(Proceed(me, evidence, Clean), Tables());
      }
    }

    /** Status and audit row change together or not at all; `report` is how the commit comes back. */
    method Decide(request: Request, error: Option<string>, proof: Option<nat>, evidence: Evidence, report: CommitReport,
                  ghost me: nat)
      returns (decided: bool)
      requires Valid() && me < |processes| && processes[me] == Process(request, Checked(error, proof))
      modifies this
      ensures Valid() && old(log) <= log && Tables() == Commit(old(Tables()), me, report)
      ensures decided <==>
        old(request.key.dispatch < |table| && table[request.key.dispatch].status.Uncertain?
            && FindAudit(audits, request.key, |audits|).None? && AuditChecks(AuditOf(request, error, proof)))
        && !report.LostAndRaised?
      ensures decided ==> audits == old(audits) + [AuditOf(request, error, proof)]
      ensures decided ==>
        request.key.dispatch < |table| && table[request.key.dispatch].status == audits[|audits| - 1].after
      ensures !decided ==> table == old(table) && audits == old(audits)
      ensures me < |processes| && processes[me] == Process(request,
        if report.LostAndRaised? then Done(CommitFailed) else if !decided then Reread
        else Done(if report.Clean? then Resolved(|old(audits)|, Queue.AfterStatus(request.key.action), false)
          else CommitFailed))
    {
      ghost var before := Tables();
      var d := request.key.dispatch;
      var audit := AuditOf(request, error, proof);
      var taken := AuditFor(request.key);
      decided := d < |table| && table[d].status.Uncertain? && taken.None? && AuditChecks(audit)
        && !report.LostAndRaised?;
      if decided {
        table := table[d := table[d].(status := audit.after, manualRetry := request.key.action.RetryApproved?,
                                      lastError := if audit.after.Success? then None else table[d].lastError)];
        audits := audits + [audit];
      }
      Record(Proceed(me, evidence, report), before);
    }

    lemma Explain(me: nat)
      requires Valid() && me < |processes| && processes[me].phase.Done?
      ensures Inv(Tables()) && ProcessOk(Tables(), processes[me])
      ensures processes[me].phase.outcome.Resolved? ==> AuditChecks(audits[processes[me].phase.outcome.audit])
    {
      RunKeeps(INITIAL, log, retryLimit);
      assert ProcessOk(Tables(), Tables().processes[me]);
    }
  }
}
