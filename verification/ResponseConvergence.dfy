/** Direct persistence and reconciliation converge: what every interleaving of completions and saves keeps. */
module ResponseConvergence {
  import opened Basics
  import Queue = DispatchQueue
  import opened ResponsePersistence

  // ----- The invariant, table by table -----

  ghost predicate RawsOk(table: Queue.Table, raws: map<nat, Raw>, outcomes: map<nat, Outcome>) {
    && raws.Keys == outcomes.Keys
    && (forall d: nat :: d in raws ==>
          d < |table| && table[d].status.Success? && Matches(outcomes[d], table[d]) && raws[d] == RawOf(outcomes[d]))
  }

  /** Two stored results never carry the same Hermes identifier. */
  ghost predicate HermesIdsUnique(raws: map<nat, Raw>) {
    forall c: nat, d: nat :: c in raws && d in raws && c != d && raws[c].hermesId.Some? ==>
      raws[c].hermesId != raws[d].hermesId
  }

  /** Every response row is what some stored result calls for; identifiers and messages are not shared. */
  ghost predicate ResponsesOk(responses: seq<Response>, origins: seq<nat>, outcomes: map<nat, Outcome>) {
    && |origins| == |responses|
    && (forall i: nat :: i < |responses| ==>
          origins[i] in outcomes && Saveable(outcomes[origins[i]]) && responses[i] == RowOf(outcomes[origins[i]]))
    && (forall i: nat, j: nat :: i < j < |responses| ==>
          responses[i].id != responses[j].id && responses[i].message != responses[j].message)
  }

  ghost predicate Carried(responses: seq<Response>, d: Delivery) {
    exists r :: r in responses && r.id == d.response && r.message == d.message
  }

  /** Every delivery belongs to a response, goes to its message's address and is the only one of that message. */
  ghost predicate DeliveriesOk(responses: seq<Response>, deliveries: seq<Delivery>, targetOf: nat -> Target) {
    && (forall j: nat :: j < |deliveries| ==> deliveries[j].target == targetOf(deliveries[j].message))
    && (forall j: nat :: j < |deliveries| ==> Carried(responses, deliveries[j]))
    && (forall i: nat, j: nat :: i < j < |deliveries| ==> deliveries[i].message != deliveries[j].message)
  }

  predicate Past(p: Phase) {
    p.Matched? || p.Missing? || p.Adding? || p.AddFailed? || (p.Done? && p.result.Saved?)
  }

  /** A save carries its dispatch's only outcome, and what it has seen of the tables is there. */
  ghost predicate SaverOk(
    responses: seq<Response>, deliveries: seq<Delivery>, outcomes: map<nat, Outcome>, s: Saver, targetOf: nat -> Target)
  {
    && s.dispatch in outcomes && s.outcome == outcomes[s.dispatch] && s.target == targetOf(s.outcome.message)
    && (!s.phase.Begin? && s.phase != Done(Invalid) ==> Saveable(s.outcome))
    && (Past(s.phase) ==> RowOf(s.outcome) in responses)
    && (s.phase.Done? && s.phase.result.Saved? ==>
          s.phase.result.response == EnvelopeOf(s.outcome).id && s.phase.result.delivery < |deliveries|
          && deliveries[s.phase.result.delivery] == DeliveryFor(s.outcome, s.target))
  }

  ghost predicate SaversOk(w: World, targetOf: nat -> Target) {
    forall k: nat :: k < |w.savers| ==> SaverOk(w.responses, w.deliveries, w.outcomes, w.savers[k], targetOf)
  }

  predicate Creates(s: Saver) {
    s.phase.Done? && s.phase.result.Saved? && s.phase.result.created
  }

  /** A save is told that it created a delivery exactly when it did and its commit reported back. */
  ghost predicate CreatorsOk(savers: seq<Saver>, creators: seq<nat>, reports: seq<CommitReport>) {
    && |reports| == |creators|
    && (forall j: nat :: j < |creators| ==>
          && creators[j] < |savers| && savers[creators[j]].phase.Done?
          && (reports[j].Clean? ==> Creates(savers[creators[j]]) && savers[creators[j]].phase.result.delivery == j))
    && (forall k: nat :: k < |savers| && Creates(savers[k]) ==>
          && savers[k].phase.result.delivery < |creators| && creators[savers[k].phase.result.delivery] == k
          && reports[savers[k].phase.result.delivery].Clean?)
  }

  ghost predicate Inv(w: World, targetOf: nat -> Target) {
    && Queue.OnePerMessage(w.table) && RawsOk(w.table, w.raws, w.outcomes) && HermesIdsUnique(w.raws)
    && ResponsesOk(w.responses, w.origins, w.outcomes) && DeliveriesOk(w.responses, w.deliveries, targetOf)
    && SaversOk(w, targetOf) && |w.creators| == |w.deliveries| && CreatorsOk(w.savers, w.creators, w.reports)
  }

  // ----- Identity of a message's rows -----

  lemma SaverOkOf(w: World, targetOf: nat -> Target, k: nat)
    requires Inv(w, targetOf) && k < |w.savers|
    ensures SaverOk(w.responses, w.deliveries, w.outcomes, w.savers[k], targetOf)
  {
  }

  /** A message has one outcome for ever, so its response row is the one any of its saves would write. */
  lemma OneOutcome(w: World, targetOf: nat -> Target, i: nat, k: nat)
    requires Inv(w, targetOf) && i < |w.responses| && k < |w.savers|
    requires w.responses[i].message == w.savers[k].outcome.message
    ensures w.responses[i] == RowOf(w.savers[k].outcome) && w.origins[i] == w.savers[k].dispatch
  {
    SaverOkOf(w, targetOf, k);
    var c, d := w.origins[i], w.savers[k].dispatch;
    assert c in w.raws && d in w.raws;
  }

  lemma FoundIsOurs(w: World, targetOf: nat -> Target, k: nat)
    requires Inv(w, targetOf) && k < |w.savers|
    ensures var existing := FindByMessage(w.responses, w.savers[k].outcome.message, |w.responses|);
      && (existing.Some? ==> w.responses[existing.value] == RowOf(w.savers[k].outcome))
      && (Past(w.savers[k].phase) ==> existing.Some?)
  {
    var existing := FindByMessage(w.responses, w.savers[k].outcome.message, |w.responses|);
    SaverOkOf(w, targetOf, k);
    if existing.Some? { OneOutcome(w, targetOf, existing.value, k); }
  }

  lemma DeliveryIsOurs(w: World, targetOf: nat -> Target, k: nat, j: nat)
    requires Inv(w, targetOf) && k < |w.savers| && j < |w.deliveries| && RowOf(w.savers[k].outcome) in w.responses
    requires w.deliveries[j].response == EnvelopeOf(w.savers[k].outcome).id
    ensures w.deliveries[j] == DeliveryFor(w.savers[k].outcome, w.savers[k].target)
  {
    SaverOkOf(w, targetOf, k);
    assert Carried(w.responses, w.deliveries[j]);
    var r :| r in w.responses && r.id == w.deliveries[j].response && r.message == w.deliveries[j].message;
    assert r == RowOf(w.savers[k].outcome);
  }

  // ----- Steps -----

  lemma LookIsSound(w: World, targetOf: nat -> Target, k: nat, next: Phase)
    requires Inv(w, targetOf) && k < |w.savers| && !w.savers[k].phase.Inserting? && !w.savers[k].phase.Adding?
    requires next == Look(w, w.savers[k])
    ensures SaverOk(w.responses, w.deliveries, w.outcomes, w.savers[k].(phase := next), targetOf)
    ensures !w.savers[k].phase.Done? ==> !Creates(w.savers[k].(phase := next))
  {
    SaverOkOf(w, targetOf, k);
    if w.savers[k].phase.Done? {
      assert w.savers[k].(phase := next) == w.savers[k];
    } else if Past(w.savers[k].phase) {
      LateLookIsSound(w, targetOf, k, next);
    } else {
      FoundIsOurs(w, targetOf, k);
    }
  }

  lemma LateLookIsSound(w: World, targetOf: nat -> Target, k: nat, next: Phase)
    requires Inv(w, targetOf) && k < |w.savers| && !w.savers[k].phase.Adding? && !w.savers[k].phase.Inserting?
    requires Past(w.savers[k].phase) && !w.savers[k].phase.Done? && next == Look(w, w.savers[k])
    ensures SaverOk(w.responses, w.deliveries, w.outcomes, w.savers[k].(phase := next), targetOf)
    ensures !Creates(w.savers[k].(phase := next))
  {
    SaverOkOf(w, targetOf, k);
    FoundIsOurs(w, targetOf, k);
    if next.Done? && next.result.Saved? {
      DeliveryIsOurs(w, targetOf, k, next.result.delivery);
    }
  }

  lemma MoveKeeps(w: World, targetOf: nat -> Target, k: nat, phase: Phase)
    requires Inv(w, targetOf) && k < |w.savers|
    requires SaverOk(w.responses, w.deliveries, w.outcomes, w.savers[k].(phase := phase), targetOf)
    requires phase == w.savers[k].phase || (!Creates(w.savers[k].(phase := phase)) && !w.savers[k].phase.Done?)
    ensures Inv(AtPhase(w, k, phase), targetOf)
  {
    assert SaversOk(AtPhase(w, k, phase), targetOf);
    assert CreatorsOk(AtPhase(w, k, phase).savers, w.creators, w.reports);
  }

  lemma WriteKeepsResponses(w: World, targetOf: nat -> Target, k: nat, report: CommitReport)
    requires Inv(w, targetOf) && k < |w.savers| && w.savers[k].phase.Inserting?
    requires CanInsert(w, w.savers[k].outcome, w.savers[k].target)
    ensures var w' := Write(w, k, true, report); ResponsesOk(w'.responses, w'.origins, w'.outcomes)
  {
    SaverOkOf(w, targetOf, k);
  }

  /** A free delivery slot of a save means that its message has no delivery. */
  lemma SlotIsFree(w: World, targetOf: nat -> Target, k: nat, j: nat)
    requires Inv(w, targetOf) && k < |w.savers| && j < |w.deliveries|
    requires !DeliveryTaken(w.deliveries, DeliveryFor(w.savers[k].outcome, w.savers[k].target))
    ensures w.deliveries[j].message != w.savers[k].outcome.message
  {
    SaverOkOf(w, targetOf, k);
    assert w.deliveries[j].target == targetOf(w.deliveries[j].message);
  }

  lemma CarriedStays(responses: seq<Response>, more: seq<Response>, d: Delivery)
    requires Carried(responses, d)
    ensures Carried(responses + more, d)
  {
    var r :| r in responses && r.id == d.response && r.message == d.message;
    assert r in responses + more;
  }

  lemma DeliveriesGrow(responses: seq<Response>, more: seq<Response>, rows: seq<Delivery>, d: Delivery,
                       targetOf: nat -> Target)
    requires DeliveriesOk(responses, rows, targetOf) && d.target == targetOf(d.message) && Carried(responses + more, d)
    requires forall j: nat :: j < |rows| ==> rows[j].message != d.message
    ensures DeliveriesOk(responses + more, rows + [d], targetOf)
  {
    forall j: nat | j < |rows| ensures Carried(responses + more, rows[j]) {
      CarriedStays(responses, more, rows[j]);
    }
  }

  lemma WriteKeepsDeliveries(w: World, targetOf: nat -> Target, k: nat, newRow: bool, report: CommitReport)
    requires Inv(w, targetOf) && k < |w.savers|
    requires newRow || RowOf(w.savers[k].outcome) in w.responses
    requires !DeliveryTaken(w.deliveries, DeliveryFor(w.savers[k].outcome, w.savers[k].target))
    ensures DeliveriesOk(Write(w, k, newRow, report).responses, Write(w, k, newRow, report).deliveries, targetOf)
  {
    var s := w.savers[k];
    var row := RowOf(s.outcome);
    var d := DeliveryFor(s.outcome, s.target);
    var added := if newRow then [row] else [];
    assert Write(w, k, newRow, report).responses == w.responses + added;
    assert s.target == targetOf(s.outcome.message) by { SaverOkOf(w, targetOf, k); }
    assert Carried(w.responses + added, d) by {
      assert row in w.responses + added && row.id == d.response && row.message == d.message;
    }
    forall j: nat | j < |w.deliveries| ensures w.deliveries[j].message != d.message {
      SlotIsFree(w, targetOf, k, j);
    }
    DeliveriesGrow(w.responses, added, w.deliveries, d, targetOf);
  }

  lemma WriteKeepsSavers(w: World, targetOf: nat -> Target, k: nat, newRow: bool, report: CommitReport)
    requires Inv(w, targetOf) && k < |w.savers| && Saveable(w.savers[k].outcome)
    requires newRow || RowOf(w.savers[k].outcome) in w.responses
    ensures SaversOk(Write(w, k, newRow, report), targetOf)
  {
    var w' := Write(w, k, newRow, report);
    forall j: nat | j < |w'.savers| ensures SaverOk(w'.responses, w'.deliveries, w'.outcomes, w'.savers[j], targetOf) {
      SaverOkOf(w, targetOf, j);
    }
  }

  /** The save that ends is not among those that already did. */
  lemma CreatorsGrow(savers: seq<Saver>, creators: seq<nat>, reports: seq<CommitReport>, k: nat, s: Saver,
                     report: CommitReport)
    requires CreatorsOk(savers, creators, reports) && k < |savers| && !savers[k].phase.Done? && s.phase.Done?
    requires if report.Clean? then Creates(s) && s.phase.result.delivery == |creators| else !Creates(s)
    ensures CreatorsOk(savers[k := s], creators + [k], reports + [report])
  {
    assert forall j: nat :: j < |creators| ==> creators[j] != k;
  }

  lemma WriteKeepsCreators(w: World, targetOf: nat -> Target, k: nat, newRow: bool, report: CommitReport)
    requires Inv(w, targetOf) && k < |w.savers| && !w.savers[k].phase.Done?
    ensures CreatorsOk(Write(w, k, newRow, report).savers, Write(w, k, newRow, report).creators,
      Write(w, k, newRow, report).reports)
  {
    CreatorsGrow(w.savers, w.creators, w.reports, k, Write(w, k, newRow, report).savers[k], report);
  }

  lemma WriteKeeps(w: World, targetOf: nat -> Target, k: nat, report: CommitReport)
    requires Inv(w, targetOf) && k < |w.savers|
    requires w.savers[k].phase.Inserting? ==> CanInsert(w, w.savers[k].outcome, w.savers[k].target)
    requires w.savers[k].phase.Inserting? || w.savers[k].phase.Adding?
    requires !DeliveryTaken(w.deliveries, DeliveryFor(w.savers[k].outcome, w.savers[k].target))
    ensures Inv(Write(w, k, w.savers[k].phase.Inserting?, report), targetOf)
  {
    var newRow := w.savers[k].phase.Inserting?;
    SaverOkOf(w, targetOf, k);
    if newRow { WriteKeepsResponses(w, targetOf, k, report); }
    WriteKeepsDeliveries(w, targetOf, k, newRow, report);
    WriteKeepsSavers(w, targetOf, k, newRow, report);
    WriteKeepsCreators(w, targetOf, k, newRow, report);
  }

  lemma AdvanceKeeps(w: World, targetOf: nat -> Target, k: nat, report: CommitReport)
    requires Inv(w, targetOf)
    ensures Inv(Advance(w, k, report), targetOf)
  {
    if k < |w.savers| {
      var s := w.savers[k];
      SaverOkOf(w, targetOf, k);
      if !s.phase.Inserting? && !s.phase.Adding? {
        LookIsSound(w, targetOf, k, Look(w, s));
        MoveKeeps(w, targetOf, k, Look(w, s));
      } else if report.LostAndRaised? {
        MoveKeeps(w, targetOf, k, Done(CommitFailed));
      } else if s.phase.Inserting? {
        if CanInsert(w, s.outcome, s.target) {
          WriteKeeps(w, targetOf, k, report);
        } else {
          MoveKeeps(w, targetOf, k, Retrying);
        }
      } else if DeliveryTaken(w.deliveries, DeliveryFor(s.outcome, s.target)) {
        MoveKeeps(w, targetOf, k, AddFailed);
      } else {
        WriteKeeps(w, targetOf, k, report);
      }
    }
  }

  lemma OutcomesGrow(w: World, outcomes: map<nat, Outcome>, targetOf: nat -> Target)
    requires Inv(w, targetOf)
    requires forall d :: d in w.outcomes ==> d in outcomes && outcomes[d] == w.outcomes[d]
    ensures ResponsesOk(w.responses, w.origins, outcomes)
    ensures forall k: nat :: k < |w.savers| ==> SaverOk(w.responses, w.deliveries, outcomes, w.savers[k], targetOf)
  {
    forall k: nat | k < |w.savers| ensures SaverOk(w.responses, w.deliveries, outcomes, w.savers[k], targetOf) {
      SaverOkOf(w, targetOf, k);
    }
  }

  lemma OnePerMessageKept(t: Queue.Table, a: Queue.Action, limit: nat)
    requires Queue.OnePerMessage(t)
    ensures Queue.OnePerMessage(Queue.Step(t, a, limit))
  {
    var t' := Queue.Step(t, a, limit);
    Queue.StepFinishes(t, a, limit);
    Queue.StepGrows(t, a, limit);
    assert forall i: nat :: i < |t| ==> t'[i].message == t[i].message;
  }

  lemma WorkKeeps(w: World, a: Queue.Action, limit: nat, targetOf: nat -> Target)
    requires Inv(w, targetOf)
    ensures Inv(w.(table := Queue.Step(w.table, a, limit)), targetOf)
  {
    Queue.StepFinishes(w.table, a, limit);
    OnePerMessageKept(w.table, a, limit);
    var t' := Queue.Step(w.table, a, limit);
    forall d: nat | d in w.raws
      ensures d < |t'| && t'[d].status.Success? && Matches(w.outcomes[d], t'[d])
    {
      assert !Queue.Blocking(w.table[d].status);
    }
  }

  lemma RawsGrow(table: Queue.Table, raws: map<nat, Raw>, outcomes: map<nat, Outcome>, d: nat, record: Queue.Dispatch,
                 o: Outcome)
    requires RawsOk(table, raws, outcomes) && d < |table| && d !in raws && record.status.Success? && Matches(o, record)
    ensures RawsOk(table[d := record], raws[d := RawOf(o)], outcomes[d := o])
  {
    assert raws[d := RawOf(o)].Keys == raws.Keys + {d} && outcomes[d := o].Keys == outcomes.Keys + {d};
  }

  lemma HermesIdsGrow(raws: map<nat, Raw>, d: nat, raw: Raw)
    requires HermesIdsUnique(raws) && d !in raws && !HermesIdTaken(raws, raw.hermesId)
    ensures HermesIdsUnique(raws[d := raw])
  {
  }

  lemma CompleteKeepsResults(w: World, d: nat, token: Token, o: Outcome, r: Rotation, now: Time,
                             targetOf: nat -> Target)
    requires Inv(w, targetOf) && Completing(w, d, token, o, r, now).Completed?
    ensures var w' := Complete(w, d, token, o, r, now);
      Queue.OnePerMessage(w'.table) && RawsOk(w'.table, w'.raws, w'.outcomes) && HermesIdsUnique(w'.raws)
  {
    OnePerMessageKept(w.table, Queue.DoComplete(d, token, Queue.Succeed, now), 0);
    HermesIdsGrow(w.raws, d, RawOf(o));
    var record := Queue.Complete(w.table, d, token, Queue.Succeed, 0, now)[d];
    RawsGrow(w.table, w.raws, w.outcomes, d, record, o);
  }

  lemma CompleteKeeps(w: World, d: nat, token: Token, o: Outcome, r: Rotation, now: Time, targetOf: nat -> Target)
    requires Inv(w, targetOf)
    ensures Inv(Complete(w, d, token, o, r, now), targetOf)
  {
    if Completing(w, d, token, o, r, now).Completed? {
      CompleteKeepsResults(w, d, token, o, r, now, targetOf);
      OutcomesGrow(w, w.outcomes[d := o], targetOf);
    }
  }

  /** The result rebuilt from storage is the one the worker had: the two paths save the same thing. */
  lemma StoredResultIsFaithful(w: World, targetOf: nat -> Target, d: nat)
    requires Inv(w, targetOf) && d in w.raws
    ensures d in w.outcomes && d < |w.table| && ToOutcome(w.raws[d], w.table[d]) == w.outcomes[d]
  {
  }

  lemma SaveKeeps(w: World, d: nat, path: Path, targetOf: nat -> Target, w': World)
    requires Inv(w, targetOf) && w' == Step(w, DoSave(d, path), targetOf)
    ensures Inv(w', targetOf)
  {
    if w' != w {
      StoredResultIsFaithful(w, targetOf, d);
      var s := w'.savers[|w.savers|];
      assert w'.savers == w.savers + [s] && s == Saver(d, w.outcomes[d], targetOf(w.outcomes[d].message), Begin);
      assert SaversOk(w', targetOf);
      assert CreatorsOk(w'.savers, w'.creators, w'.reports);
    }
  }

  lemma StepKeeps(w: World, act: Action, targetOf: nat -> Target)
    requires Inv(w, targetOf)
    ensures Inv(Step(w, act, targetOf), targetOf)
  {
    match act
    case DoWork(a, limit) => WorkKeeps(w, a, limit, targetOf);
    case DoOpen(thread, h) =>
    case DoComplete(d, token, o, r, at) => CompleteKeeps(w, d, token, o, r, at, targetOf);
    case DoAdvance(k, report) => AdvanceKeeps(w, targetOf, k, report);
    case DoSave(d, path) => SaveKeeps(w, d, path, targetOf, Step(w, act, targetOf));
  }

  lemma {:induction false} RunKeeps(w: World, acts: seq<Action>, targetOf: nat -> Target)
    requires Inv(w, targetOf)
    ensures Inv(Run(w, acts, targetOf), targetOf)
    decreases |acts|
  {
    if acts != [] {
      StepKeeps(w, acts[0], targetOf);
      RunKeeps(Step(w, acts[0], targetOf), acts[1..], targetOf);
    }
  }

  lemma InitialInv(targetOf: nat -> Target)
    ensures Inv(INITIAL, targetOf)
  {
  }
}
