/**
 From a Hermes result to a durable response and its delivery. The result is stored with the dispatch completion; the
 response is then saved by the worker that has the result in memory, and by reconciliation from the stored result, in
 any order and any number of times.
 */
module ResponsePersistence {
  import opened Basics
  import Queue = DispatchQueue

  datatype Part = TextPart(text: string) | ArtifactRefPart(artifact: string)

  datatype Envelope = Envelope(id: string, parts: seq<Part>)

  /** A successful Hermes call, as the worker holds it in memory. */
  datatype Outcome = Outcome(message: nat, workspace: string, thread: string, content: string,
    envelope: Option<Envelope>)

  /** The session rotation that goes with an outcome: from the requested Hermes thread to the next one. */
  datatype Rotation = Rotation(requested: Option<string>, next: Option<string>)

  /** The stored result of a dispatch. */
  datatype Raw = Raw(hermesId: Option<string>, content: string, payload: Option<Envelope>)

  datatype Response = Response(id: string, message: nat, workspace: string, thread: string, parts: seq<Part>)

  datatype Target = Target(channel: string, account: string, conversation: string)

  /** `message` stands for the delivery's idempotency key, which is derived from the message and the target. */
  datatype Delivery = Delivery(message: nat, response: string, target: Target)

  // ----- The envelope of an outcome -----

  function Digits(n: nat): (s: string)
    ensures s != ""
  {
    var d := ['0', '1', '2', '3', '4', '5', '6', '7', '8', '9'][n % 10];
    if n < 10 then [d] else Digits(n / 10) + [d]
  }

  function StableId(message: nat): string {
    "legacy-response:message:" + Digits(message)
  }

  /** An outcome without an envelope must carry text; message identifiers are positive. */
  predicate Saveable(o: Outcome) {
    o.message > 0 && (o.envelope.Some? || o.content != "")
  }

  function EnvelopeOf(o: Outcome): Envelope {
    match o.envelope case Some(e) => e case None => Envelope(StableId(o.message), [TextPart(o.content)])
  }

  function RowOf(o: Outcome): Response {
    Response(EnvelopeOf(o).id, o.message, o.workspace, o.thread, EnvelopeOf(o).parts)
  }

  predicate Compatible(r: Response, o: Outcome) {
    && r.id == EnvelopeOf(o).id && r.message == o.message && r.workspace == o.workspace && r.thread == o.thread
    && r.parts == EnvelopeOf(o).parts
  }

  // ----- Storing the result -----

  function RawOf(o: Outcome): Raw {
    Raw(if o.envelope.Some? then Some(o.envelope.value.id) else None, o.content, o.envelope)
  }

  /** Rebuilds the outcome from the stored result and the dispatch record. */
  function ToOutcome(raw: Raw, record: Queue.Dispatch): Outcome {
    Outcome(record.message, record.target.workspace, record.target.thread, raw.content, raw.payload)
  }

  predicate Matches(o: Outcome, r: Queue.Dispatch) {
    r.message == o.message && r.target.workspace == o.workspace && r.target.thread == o.thread
  }

  // ----- Saving -----

  /**
   `Raised` is an integrity error that no row explains, `CommitFailed` any other error of a commit, whatever was
   written.
   */
  datatype Result = Saved(response: string, delivery: nat, created: bool) | Invalid | Conflict | Raised | CommitFailed

  /** Where a save stands between two of its statements. */
  datatype Phase = Begin | Inserting | Retrying | Matched | Missing | Adding | AddFailed | Done(result: Result)

  datatype Saver = Saver(dispatch: nat, outcome: Outcome, target: Target, phase: Phase)

  /**
   `outcomes` is what workers have been told, `origins` the dispatch behind each response row, `creators` the save that
   inserted each delivery and `reports` how its commit came back.
   */
  datatype World = World(
    table: Queue.Table, raws: map<nat, Raw>, sessions: map<string, string>,
    responses: seq<Response>, deliveries: seq<Delivery>, savers: seq<Saver>,
    outcomes: map<nat, Outcome>, origins: seq<nat>, creators: seq<nat>, reports: seq<CommitReport>)

  const INITIAL := World([], map[], map[], [], [], [], map[], [], [], [])

  function FindByMessage(rows: seq<Response>, message: nat, n: nat): (r: Option<nat>)
    requires n <= |rows|
    ensures r.Some? ==> r.value < n && rows[r.value].message == message
    ensures r.None? ==> forall i: nat :: i < n ==> rows[i].message != message
  {
    if n == 0 then None else if rows[n - 1].message == message then Some(n - 1) else FindByMessage(rows, message, n - 1)
  }

  predicate IdTaken(rows: seq<Response>, id: string) {
    exists i :: 0 <= i < |rows| && rows[i].id == id
  }

  function FindDelivery(rows: seq<Delivery>, id: string, target: Target, n: nat): (r: Option<nat>)
    requires n <= |rows|
    ensures r.Some? ==> r.value < n && rows[r.value].response == id && rows[r.value].target == target
    ensures r.None? ==> forall i: nat :: i < n ==> rows[i].response != id || rows[i].target != target
  {
    if n == 0 then None
    else if rows[n - 1].response == id && rows[n - 1].target == target then Some(n - 1)
    else FindDelivery(rows, id, target, n - 1)
  }

  function FindAnyDelivery(rows: seq<Delivery>, id: string, n: nat): (r: Option<nat>)
    requires n <= |rows|
    ensures r.Some? ==> r.value < n && rows[r.value].response == id
    ensures r.None? ==> forall i: nat :: i < n ==> rows[i].response != id
  {
    if n == 0 then None else if rows[n - 1].response == id then Some(n - 1) else FindAnyDelivery(rows, id, n - 1)
  }

  /** The two unique constraints of the delivery table. */
  predicate DeliveryTaken(rows: seq<Delivery>, d: Delivery) {
    exists i :: 0 <= i < |rows| && rows[i].target == d.target
      && (rows[i].response == d.response || rows[i].message == d.message)
  }

  function DeliveryFor(o: Outcome, target: Target): Delivery {
    Delivery(o.message, EnvelopeOf(o).id, target)
  }

  predicate CanInsert(w: World, o: Outcome, target: Target) {
    && FindByMessage(w.responses, o.message, |w.responses|).None? && !IdTaken(w.responses, EnvelopeOf(o).id)
    && !DeliveryTaken(w.deliveries, DeliveryFor(o, target))
  }

  /** The outcome of a read that only looks: the next phase of a save that does not write. */
  function Look(w: World, s: Saver): Phase
    requires !s.phase.Inserting? && !s.phase.Adding?
  {
    var o := s.outcome;
    var id := EnvelopeOf(o).id;
    var existing := FindByMessage(w.responses, o.message, |w.responses|);
    match s.phase
    case Begin =>
      if !Saveable(o) then Done(Invalid)
      else if existing.None? then Inserting
      else if Compatible(w.responses[existing.value], o) then Matched
      else Done(Conflict)
    case Retrying =>
      if existing.None? then Done(Raised)
      else if Compatible(w.responses[existing.value], o) then Matched
      else Done(Conflict)
    case Matched =>
      (match FindDelivery(w.deliveries, id, s.target, |w.deliveries|)
       case Some(j) => Done(Saved(id, j, false))
       case None => Missing)
    case Missing =>
      (match FindAnyDelivery(w.deliveries, id, |w.deliveries|)
       case Some(j) => if w.deliveries[j].target == s.target then Done(Saved(id, j, false)) else Done(Conflict)
       case None => Adding)
    case AddFailed =>
      if existing.None? then Done(Raised)
      else if !Compatible(w.responses[existing.value], o) then Done(Conflict)
      else (match FindDelivery(w.deliveries, id, s.target, |w.deliveries|)
            case Some(j) => Done(Saved(id, j, false))
            case None => Done(Raised))
    case Done(_) => s.phase
  }

  function AtPhase(w: World, k: nat, phase: Phase): World
    requires k < |w.savers|
  {
    w.(savers := w.savers[k := w.savers[k].(phase := phase)])
  }

  /**
   A commit that lands writes a delivery, with its response when that is new; the save learns of it if the commit
   reports back.
   */
  function Write(w: World, k: nat, newRow: bool, report: CommitReport): World
    requires k < |w.savers|
  {
    var s := w.savers[k];
    var w1 := AtPhase(w, k,
      Done(if report.Clean? then Saved(EnvelopeOf(s.outcome).id, |w.deliveries|, true) else CommitFailed));
    w1.(deliveries := w.deliveries + [DeliveryFor(s.outcome, s.target)], creators := w.creators + [k],
      reports := w.reports + [report],
        responses := if newRow then w.responses + [RowOf(s.outcome)] else w.responses,
        origins := if newRow then w.origins + [s.dispatch] else w.origins)
  }

  /**
   The next statement of a save; a crash is a save that takes no further step. `report` is how its commit comes back.
   */
  function Advance(w: World, k: nat, report: CommitReport): World {
    if k >= |w.savers| then w
    else
      var s := w.savers[k];
      match s.phase
      case Inserting =>
        if report.LostAndRaised? then AtPhase(w, k, Done(CommitFailed))
        else if CanInsert(w, s.outcome, s.target) then Write(w, k, true, report) else AtPhase(w, k, Retrying)
      case Adding =>
        if report.LostAndRaised? then AtPhase(w, k, Done(CommitFailed))
        else if DeliveryTaken(w.deliveries, DeliveryFor(s.outcome, s.target)) then AtPhase(w, k, AddFailed)
        else Write(w, k, false, report)
      case _ => AtPhase(w, k, Look(w, s))
  }

  // ----- Runs -----

  datatype Completion = Completed | StateConflict | RotationMissing

  predicate HermesIdTaken(raws: map<nat, Raw>, id: Option<string>) {
    id.Some? && exists d :: d in raws && raws[d].hermesId == id
  }

  /** The fenced completion: dispatch, session rotation and stored result change together or not at all. */
  function Completing(w: World, d: nat, token: Token, o: Outcome, r: Rotation, now: Time): Completion {
    if !Queue.Fenced(w.table, d, token, now) || !Matches(o, w.table[d]) then StateConflict
    else if r.requested.Some? && r.next.None? then RotationMissing
    else if r.requested.Some? && !(o.thread in w.sessions && w.sessions[o.thread] == r.requested.value)
      then StateConflict
    else if d in w.raws || HermesIdTaken(w.raws, RawOf(o).hermesId) then StateConflict
    else Completed
  }

  function Complete(w: World, d: nat, token: Token, o: Outcome, r: Rotation, now: Time): World {
    if !Completing(w, d, token, o, r, now).Completed? then w
    else w.(table := Queue.Complete(w.table, d, token, Queue.Succeed, 0, now),
            sessions := if r.requested.Some? then w.sessions[o.thread := r.next.value] else w.sessions,
            raws := w.raws[d := RawOf(o)], outcomes := w.outcomes[d := o])
  }

  /** A save starts from memory right after the completion, or from the stored result during reconciliation. */
  datatype Path = Direct | Reconciled

  function OutcomeFor(w: World, d: nat, path: Path): Outcome
    requires d in w.raws && d in w.outcomes && d < |w.table|
  {
    match path case Direct => w.outcomes[d] case Reconciled => ToOutcome(w.raws[d], w.table[d])
  }

  datatype Action =
    | DoWork(action: Queue.Action, retryLimit: nat)
    | DoOpen(thread: string, hermesThread: string)
    | DoComplete(dispatch: nat, token: Token, outcome: Outcome, rotation: Rotation, at: Time)
    | DoSave(dispatch: nat, path: Path)
    | DoAdvance(saver: nat, report: CommitReport)

  /** `targetOf` is the channel address of each message, which never changes. */
  function Step(w: World, act: Action, targetOf: nat -> Target): World {
    match act
    case DoWork(a, limit) => w.(table := Queue.Step(w.table, a, limit))
    case DoOpen(thread, h) => if thread in w.sessions then w else w.(sessions := w.sessions[thread := h])
    case DoComplete(d, token, o, r, at) => Complete(w, d, token, o, r, at)
    case DoSave(d, path) =>
      if d !in w.raws || d !in w.outcomes || d >= |w.table| || !w.table[d].status.Success? then w
      else
        var o := OutcomeFor(w, d, path);
        w.(savers := w.savers + [Saver(d, o, targetOf(o.message), Begin)])
    case DoAdvance(k, report) => Advance(w, k, report)
  }

  function Run(w: World, acts: seq<Action>, targetOf: nat -> Target): World
    decreases |acts|
  {
    if acts == [] then w else Run(Step(w, acts[0], targetOf), acts[1..], targetOf)
  }
}
