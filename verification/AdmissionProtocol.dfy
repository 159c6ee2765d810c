/**
 Ingestion of a message, statement by statement: any number of deliveries of it claim, evaluate, complete, release,
 crash and replay in any order, while workers use the dispatches. A step's `Choice` holds what it draws from outside.
 */
module AdmissionProtocol {
  import opened Basics
  import Queue = DispatchQueue
  import opened AdmissionOutcomes

  datatype Phase =
    | Start
    | SawOutcome(stored: bool)
    | Adopting(dispatch: nat)
    | AdoptLost(dispatch: nat)
    | Creating
    | CreateLost
    | Claiming
    | ClaimLost
    | GotToken(token: Token)
    | Claimed(token: Token, facts: Option<RequestFacts>)
    | LegacyClosing(token: Token, dispatch: nat)
    | LegacyLost(token: Token, dispatch: nat)
    | Evaluating(token: Token, request: RequestFacts)
    | Allowing(token: Token, outcome: Outcome)
    | Denying(token: Token, outcome: Outcome)
    | DenyCommit(token: Token, outcome: Outcome)
    | Releasing(token: Token)
    | Replaying(row: Row)
    | Repairing(admission: Outcome)
    | Finished(result: Outcome)
    | Failed

  datatype Process = Process(message: nat, phase: Phase)

  datatype World = World(rows: map<nat, Row>, table: Queue.Table, processes: seq<Process>, used: set<Token>)

  const INITIAL := World(map[], [], [], {})

  datatype Choice = Choice(token: Token, request: RequestFacts, candidate: Candidate, environment: Environment,
    now: Time, lease: nat)

  const ERROR_CODE := "admission_evaluation_failed"

  function FindDispatch(table: Queue.Table, message: nat): Option<nat> {
    Queue.FindMessage(table, message, |table|)
  }

  function TargetOf(identity: Option<string>, workspace: Option<string>, thread: Option<string>): Option<Queue.Target> {
    if identity.Some? && workspace.Some? && thread.Some?
      then Some(Queue.Target(identity.value, workspace.value, thread.value))
    else None
  }

  predicate IsAllowed(r: Row) {
    r.state.Completed? && r.decision == Some(Allowed)
  }

  function RowTarget(r: Row): Option<Queue.Target> {
    TargetOf(r.identity, r.workspace, r.thread)
  }

  // ----- Rows -----

  /** An unowned claim, or one whose lease has run out, can be taken. */
  predicate CanClaim(r: Row, now: Time) {
    r.state.Pending? && (r.token.None? || (r.lease.Some? && r.lease.value <= now))
  }

  function ClaimRow(r: Row, token: Token, lease: Time): Row {
    r.(token := Some(token), lease := Some(lease), attempts := r.attempts + 1, lastError := None)
  }

  function ReleaseRow(r: Row, token: Token): Row {
    if r.state.Pending? && r.token == Some(token) then r.(token := None, lease := None, lastError := Some(ERROR_CODE))
      else r
  }

  /** The row of a dispatch that was admitted before outcomes were stored. */
  function LegacyRow(message: nat, t: Queue.Target, attempts: nat, now: Time): Row {
    Row(message, Completed, Some(Allowed), LegacyDispatch, Some("allowed"), true, None, None, None, None, None,
      NO_POLICIES,
        Some(t.identity), Some(t.workspace), Some(t.thread), "legacy", NO_ROUTE, attempts, None, None, None, Some(now))
  }

  predicate CompatibleLegacy(r: Row, d: Queue.Dispatch) {
    r.message == d.message && IsAllowed(r) && r.reason == Some("allowed") && r.shouldCreateTask
      && RowTarget(r) == Some(d.target)
  }

  // ----- Statements -----

  function AtPhase(w: World, k: nat, phase: Phase): World
    requires k < |w.processes|
  {
    w.(processes := w.processes[k := w.processes[k].(phase := phase)])
  }

  function WithRow(w: World, k: nat, row: Row, phase: Phase): World
    requires k < |w.processes|
  {
    AtPhase(w.(rows := w.rows[w.processes[k].message := row]), k, phase)
  }

  /** The evaluation, on the message and the request that its claim found in the row. */
  function Evaluate(m: nat, token: Token, facts: RequestFacts, c: Choice): Phase {
    match Admit(c.candidate.(message := m, request := facts), c.environment)
    case None => Releasing(token)
    case Some(o) => if o.admitted && o.reason.ReasonAllowed? then Allowing(token, o) else Denying(token, o)
  }

  /** A stored outcome is answered again; an admitted one must have its dispatch. */
  function Replay(table: Queue.Table, m: nat, row: Row): Phase {
    var dispatch := FindDispatch(table, m);
    match ToAdmissionOutcome(row)
    case None => Failed
    case Some(o) =>
      if !o.admitted then (if dispatch.Some? then Failed else Finished(o))
      else if dispatch.None? then Repairing(o)
      else if Some(table[dispatch.value].target) == TargetOf(o.identity, o.workspace, o.thread) then Finished(o)
      else Failed
  }

  /** What a statement that only reads does next. */
  function Look(w: World, m: nat, phase: Phase, c: Choice): Phase
    requires phase.AdoptLost? || phase.LegacyLost? ==> phase.dispatch < |w.table|
  {
    var stored := m in w.rows;
    var dispatch := FindDispatch(w.table, m);
    match phase
    case Start => if stored && w.rows[m].state.Completed? then Replaying(w.rows[m]) else SawOutcome(stored)
    case SawOutcome(had) => if had then Claiming else if dispatch.Some? then Adopting(dispatch.value) else Creating
    case AdoptLost(d) => if stored && CompatibleLegacy(w.rows[m], w.table[d]) then Replaying(w.rows[m]) else Failed
    case CreateLost => if !stored then Failed else if w.rows[m].state.Completed? then Replaying(w.rows[m]) else Claiming
    case ClaimLost => if stored && w.rows[m].state.Completed? then Replaying(w.rows[m]) else Failed
    case GotToken(t) => if stored then Claimed(t, RequestOf(w.rows[m])) else Failed
    case Claimed(t, facts) =>
      if dispatch.Some? then LegacyClosing(t, dispatch.value)
      else if facts.None? then Releasing(t)
      else Evaluating(t, facts.value)
    case LegacyLost(t, d) => if stored && CompatibleLegacy(w.rows[m], w.table[d]) then Replaying(w.rows[m])
      else Releasing(t)
    case Evaluating(t, facts) => Evaluate(m, t, facts, c)
    case Denying(t, o) => if dispatch.Some? then LegacyClosing(t, dispatch.value) else DenyCommit(t, o)
    case Replaying(row) => Replay(w.table, m, row)
    case _ => phase
  }

  /** Outcome and dispatch are written together or not at all. */
  function Allow(w: World, k: nat, token: Token, o: Outcome, now: Time): World
    requires k < |w.processes|
  {
    var m := w.processes[k].message;
    var target := TargetOf(o.identity, o.workspace, o.thread);
    var staged := if m in w.rows then StageCompletion(w.rows[m], token, o, now) else None;
    if staged.None? || target.None? then AtPhase(w, k, Releasing(token))
    else match Queue.Enqueue(w.table, m, target.value, now)
      case TargetConflict(_) => AtPhase(w, k, Releasing(token))
      case Existing(_) => WithRow(w, k, staged.value, Finished(o))
      case Inserted(table) => WithRow(w, k, staged.value, Finished(o)).(table := table)
  }

  function Deny(w: World, k: nat, token: Token, o: Outcome, now: Time): World
    requires k < |w.processes|
  {
    var m := w.processes[k].message;
    var staged := if m in w.rows then StageCompletion(w.rows[m], token, o, now) else None;
    if staged.None? || o.admitted || o.shouldCreateTask then AtPhase(w, k, Releasing(token))
    else WithRow(w, k, staged.value, Finished(o))
  }

  function Grant(w: World, k: nat, row: Row, phase: Phase, token: Token): World
    requires k < |w.processes|
  {
    WithRow(w, k, row, phase).(used := w.used + {token})
  }

  /** The first claim inserts the row; tokens are drawn fresh. */
  function Create(w: World, k: nat, c: Choice): World
    requires k < |w.processes|
  {
    var m := w.processes[k].message;
    if c.token in w.used then w
    else if m in w.rows then AtPhase(w, k, CreateLost)
    else Grant(w, k, PendingRow(m, c.request, c.token, c.now + c.lease), Claimed(c.token, Some(c.request)), c.token)
  }

  function Claim(w: World, k: nat, c: Choice): World
    requires k < |w.processes|
  {
    var m := w.processes[k].message;
    if c.token in w.used then w
    else if m in w.rows && CanClaim(w.rows[m], c.now)
    then Grant(w, k, ClaimRow(w.rows[m], c.token, c.now + c.lease), GotToken(c.token), c.token)
    else AtPhase(w, k, ClaimLost)
  }

  function Adopt(w: World, k: nat, d: nat, now: Time): World
    requires k < |w.processes| && d < |w.table|
  {
    var m := w.processes[k].message;
    if m in w.rows then AtPhase(w, k, AdoptLost(d))
    else
      var row := LegacyRow(m, w.table[d].target, 0, now);
      WithRow(w, k, row, Replaying(row))
  }

  function CloseLegacy(w: World, k: nat, token: Token, d: nat, now: Time): World
    requires k < |w.processes| && d < |w.table|
  {
    var m := w.processes[k].message;
    if m !in w.rows || !w.rows[m].state.Pending? || w.rows[m].token != Some(token)
      then AtPhase(w, k, LegacyLost(token, d))
    else
      var row := LegacyRow(m, w.table[d].target, w.rows[m].attempts, now);
      WithRow(w, k, row, Replaying(row))
  }

  function Release(w: World, k: nat, token: Token): World
    requires k < |w.processes|
  {
    var m := w.processes[k].message;
    if m in w.rows then WithRow(w, k, ReleaseRow(w.rows[m], token), Failed) else AtPhase(w, k, Failed)
  }

  function Repair(w: World, k: nat, o: Outcome, now: Time): World
    requires k < |w.processes|
  {
    var target := TargetOf(o.identity, o.workspace, o.thread);
    if target.None? then AtPhase(w, k, Failed)
    else match Queue.Enqueue(w.table, w.processes[k].message, target.value, now)
      case TargetConflict(_) => AtPhase(w, k, Failed)
      case Existing(_) => AtPhase(w, k, Finished(o))
      case Inserted(table) => AtPhase(w, k, Finished(o)).(table := table)
  }

  /** Phases that refer to a dispatch refer to one that exists. */
  predicate Grounded(table: Queue.Table, phase: Phase) {
    phase.Adopting? || phase.AdoptLost? || phase.LegacyClosing? || phase.LegacyLost? ==> phase.dispatch < |table|
  }

  /** The next statement of a delivery; a crash is a delivery that takes no further step. */
  function Advance(w: World, k: nat, c: Choice): World {
    if k >= |w.processes| || !Grounded(w.table, w.processes[k].phase) then w
    else
      var p := w.processes[k];
      match p.phase
      case Adopting(d) => Adopt(w, k, d, c.now)
      case Creating => Create(w, k, c)
      case Claiming => Claim(w, k, c)
      case LegacyClosing(t, d) => CloseLegacy(w, k, t, d, c.now)
      case Allowing(t, o) => Allow(w, k, t, o, c.now)
      case DenyCommit(t, o) => Deny(w, k, t, o, c.now)
      case Releasing(t) => Release(w, k, t)
      case Repairing(o) => Repair(w, k, o, c.now)
      case _ => AtPhase(w, k, Look(w, p.message, p.phase, c))
  }

  datatype Action =
    | Deliver(message: nat)
    | Proceed(process: nat, choice: Choice)
    | Work(action: Queue.Action, retryLimit: nat)

  /** Only ingestion enqueues; workers and operators do everything else to the dispatches. */
  function Step(w: World, act: Action): World {
    match act
    case Deliver(m) => w.(processes := w.processes + [Process(m, Start)])
    case Proceed(k, c) => Advance(w, k, c)
    case Work(a, limit) => if a.DoEnqueue? then w else w.(table := Queue.Step(w.table, a, limit))
  }

  function Run(w: World, acts: seq<Action>): World
    decreases |acts|
  {
    if acts == [] then w else Run(Step(w, acts[0]), acts[1..])
  }

  lemma {:induction false} RunSnoc(w: World, acts: seq<Action>, act: Action)
    ensures Run(w, acts + [act]) == Step(Run(w, acts), act)
    decreases |acts|
  {
    if acts == [] {
      assert acts + [act] == [act];
    } else {
      assert (acts + [act])[1..] == acts[1..] + [act];
      RunSnoc(Step(w, acts[0]), acts[1..], act);
    }
  }
}
