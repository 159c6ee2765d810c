/** The stores that complete a dispatch and save its response, statement by statement. */
module ResponseStore {
  import opened Basics
  import Queue = DispatchQueue
  import Recovery = DispatchRecovery
  import Operators = OperatorEvidence
  import opened ResponsePersistence
  import opened ResponseConvergence

  lemma {:induction false} RunSnoc(w: World, acts: seq<Action>, act: Action, targetOf: nat -> Target)
    ensures Run(w, acts + [act], targetOf) == Step(Run(w, acts, targetOf), act, targetOf)
    decreases |acts|
  {
    if acts == [] {
      assert acts + [act] == [act];
    } else {
      assert (acts + [act])[1..] == acts[1..] + [act];
      RunSnoc(Step(w, acts[0], targetOf), acts[1..], act, targetOf);
    }
  }

  lemma InsertWrites(w: World, k: nat, report: CommitReport)
    requires k < |w.savers| && w.savers[k].phase.Inserting?
    ensures var w' := Advance(w, k, report);
      var s := w.savers[k];
      var lands := !report.LostAndRaised? && CanInsert(w, s.outcome, s.target);
      && w'.table == w.table && w'.raws == w.raws && w'.sessions == w.sessions
      && w'.responses == (if lands then w.responses + [RowOf(s.outcome)] else w.responses)
      && w'.deliveries == (if lands then w.deliveries + [DeliveryFor(s.outcome, s.target)] else w.deliveries)
  {
  }

  /** What a writing transaction tells its caller: accepted, refused by a constraint, or another error. */
  datatype Written = Accept | Refuse | Raise

  /** The tables and the run that produced them; saves in progress are known to the proof only. */
  class Tables {
    var table: Queue.Table
    var raws: map<nat, Raw>
    var sessions: map<string, string>
    var responses: seq<Response>
    var deliveries: seq<Delivery>
    ghost const targetOf: nat -> Target
    ghost var savers: seq<Saver>
    ghost var outcomes: map<nat, Outcome>
    ghost var origins: seq<nat>
    ghost var creators: seq<nat>
    ghost var reports: seq<CommitReport>
    ghost var log: seq<Action>

    constructor (ghost targetOf: nat -> Target)
      ensures Valid() && log == [] && this.targetOf == targetOf
    {
      this.targetOf := targetOf;
      table, raws, sessions, responses, deliveries := [], map[], map[], [], [];
      savers, outcomes, origins, creators, reports, log := [], map[], [], [], [], [];
    }

    ghost function State(): World
      reads this
    {
      World(table, raws, sessions, responses, deliveries, savers, outcomes, origins, creators, reports)
    }

    ghost predicate Valid()
      reads this
    {
      State() == Run(INITIAL, log, targetOf)
    }

    lemma Consistent()
      requires Valid()
      ensures Inv(State(), targetOf)
    {
      InitialInv(targetOf);
      RunKeeps(INITIAL, log, targetOf);
    }

    /** Commits the bookkeeping of one action whose effect on the tables has been written. */
    ghost method Record(act: Action, before: World)
      requires before == Run(INITIAL, log, targetOf)
      requires var w := Step(before, act, targetOf);
        table == w.table && raws == w.raws && sessions == w.sessions && responses == w.responses
          && deliveries == w.deliveries
      modifies this`savers, this`outcomes, this`origins, this`creators, this`reports, this`log
      ensures Valid() && log == old(log) + [act] && State() == Step(before, act, targetOf)
    {
      var w := Step(before, act, targetOf);
      RunSnoc(INITIAL, log, act, targetOf);
      savers, outcomes, origins, creators, reports := w.savers, w.outcomes, w.origins, w.creators, w.reports;
      log := log + [act];
    }

    /** Workers, completions and other saves commit between two statements of save `me`. */
    method Others(ghost me: nat)
      requires Valid() && me < |savers|
      modifies this
      ensures Valid() && old(log) <= log && me < |savers| && savers[me] == old(savers[me])
    {
    }

    /** Ends a claim with its stored result; everything or nothing is written. */
    method CompleteSuccess(d: nat, token: Token, o: Outcome, r: Rotation, now: Time) returns (c: Completion)
      requires Valid()
      modifies this
      ensures Valid() && old(log) <= log && State() == Complete(old(State()), d, token, o, r, now)
      ensures c == Completing(old(State()), d, token, o, r, now)
      ensures c.RotationMissing? <==>
        old(Queue.Fenced(table, d, token, now) && Matches(o, table[d])) && r.requested.Some? && r.next.None?
      ensures c.Completed? <==>
        && old(Queue.Fenced(table, d, token, now) && Matches(o, table[d])) && d !in old(raws)
        && (o.envelope.Some? ==> forall e :: e in old(raws) ==> old(raws)[e].hermesId != Some(o.envelope.value.id))
        && (r.requested.Some? ==>
              r.next.Some? && o.thread in old(sessions) && old(sessions)[o.thread] == r.requested.value)
      ensures r.requested.None? ==> sessions == old(sessions)
      ensures c.Completed? ==> d in raws && d < |table| && table[d].status.Success? && ToOutcome(raws[d], table[d]) == o
      ensures c.Completed? && r.requested.Some? ==>
        o.thread in old(sessions) && old(sessions)[o.thread] == r.requested.value
          && sessions == old(sessions)[o.thread := r.next.value]
      ensures !c.Completed? ==> State() == old(State())
    {
      ghost var before := State();
      if !Queue.Fenced(table, d, token, now) || !Matches(o, table[d]) { return StateConflict; }
      if r.requested.Some? {
        if r.next.None? { return RotationMissing; }
        if o.thread !in sessions || sessions[o.thread] != r.requested.value { return StateConflict; }
      }
      if d in raws || HermesIdTaken(raws, RawOf(o).hermesId) { return StateConflict; }
      table := table[d := table[d].(status := Queue.Success, token := None, lease := None, lastError := None)];
      if r.requested.Some? { sessions := sessions[o.thread := r.next.value]; }
      raws := raws[d := RawOf(o)];
      Record(DoComplete(d, token, o, r, now), before);
      c := Completed;
    }

    /** The delivery of a response at an address, by their unique key. */
    method FindTarget(id: string, target: Target) returns (found: Option<nat>)
      ensures found == FindDelivery(deliveries, id, target, |deliveries|)
    {
      var n: nat := |deliveries|;
      while n > 0 && !(deliveries[n - 1].response == id && deliveries[n - 1].target == target)
        invariant n <= |deliveries|
        invariant FindDelivery(deliveries, id, target, |deliveries|) == FindDelivery(deliveries, id, target, n)
      {
        n := n - 1;
      }
      found := if n == 0 then None else Some(n - 1);
    }

    /** Saves an outcome once, whatever other saves of it do in the meantime. */
    method SaveGenerated(o: Outcome, target: Target, ghost me: nat) returns (r: Result)
      requires Valid() && me < |savers| && savers[me].outcome == o && savers[me].target == target
        && savers[me].phase.Begin?
      modifies this
      ensures Valid() && old(log) <= log && me < |savers| && savers[me] == old(savers[me]).(phase := Done(r))
      ensures r.Invalid? <==> !Saveable(o)
      ensures r.Saved? ==>
        && RowOf(o) in responses && r.response == EnvelopeOf(o).id
        && r.delivery < |deliveries| && deliveries[r.delivery] == DeliveryFor(o, target)
    {
      var existing := FindByMessage(responses, o.message, |responses|);
      Record(DoAdvance(me, Clean), State());
      if !Saveable(o) {
        r := Invalid;
      } else if existing.Some? {
        r := SaveExisting(responses[existing.value], o, target, me);
      } else {
        Others(me);
        r := Insert(o, target, me);
      }
      Explain(me);
    }

    lemma Explain(me: nat)
      requires Valid() && me < |savers|
      ensures SaverOk(responses, deliveries, outcomes, savers[me], targetOf)
    {
      Consistent();
      SaverOkOf(State(), targetOf, me);
    }

    /** The response is there: it must agree, and its delivery is found or added. */
    method SaveExisting(row: Response, o: Outcome, target: Target, ghost me: nat) returns (r: Result)
      requires Valid() && me < |savers| && savers[me].outcome == o && savers[me].target == target
      requires savers[me].phase == if Compatible(row, o) then Matched else Done(Conflict)
      modifies this
      ensures Valid() && old(log) <= log && me < |savers| && savers[me] == old(savers[me]).(phase := Done(r))
        && !r.Invalid?
    {
      if !Compatible(row, o) { return Conflict; }
      Others(me);
      var delivery := FindTarget(row.id, target);
      Record(DoAdvance(me, Clean), State());
      if delivery.Some? {
        r := Saved(row.id, delivery.value, false);
      } else {
        Others(me);
        r := CreateMissingDelivery(row, o, target, me);
      }
    }

    /**
     The transaction of a new response and its delivery: refused as a whole by any unique constraint. `report` is how
     the commit comes back; an error other than a refusal is raised, whether or not the rows landed.
     */
    method InsertRows(o: Outcome, target: Target, report: CommitReport, ghost me: nat) returns (written: Written)
      requires Valid() && me < |savers| && savers[me].outcome == o && savers[me].target == target
        && savers[me].phase.Inserting?
      modifies this
      ensures Valid() && old(log) <= log && State() == Advance(old(State()), me, report)
      ensures written == (if report.LostAndRaised? then Raise else if !old(CanInsert(State(), o, target)) then Refuse
                          else if report.Clean? then Accept else Raise)
      ensures written.Accept? ==> RowOf(o) in responses && DeliveryFor(o, target) in deliveries
      ensures written.Refuse? || report.LostAndRaised? ==> responses == old(responses) && deliveries == old(deliveries)
    {
      ghost var before := State();
      var row := RowOf(o);
      var delivery := DeliveryFor(o, target);
      var free := FindByMessage(responses, o.message, |responses|).None? && !IdTaken(responses, row.id)
                  && !DeliveryTaken(deliveries, delivery);
      if !report.LostAndRaised? && free {
        responses := responses + [row];
        deliveries := deliveries + [delivery];
      }
      written := if report.LostAndRaised? then Raise else if !free then Refuse else if report.Clean? then Accept
        else Raise;
      InsertWrites(before, me, report);
      Record(DoAdvance(me, report), before);
    }

    /** Inserts what is missing; a lost race is answered from what is there. */
    method Insert(o: Outcome, target: Target, ghost me: nat) returns (r: Result)
      requires Valid() && me < |savers| && savers[me].outcome == o && savers[me].target == target
        && savers[me].phase.Inserting?
      modifies this
      ensures Valid() && old(log) <= log && me < |savers| && savers[me] == old(savers[me]).(phase := Done(r))
        && !r.Invalid?
    {
      var next := |deliveries|;
      var report: CommitReport := *;
      var written := InsertRows(o, target, report, me);
      match written {
        case Accept => r := Saved(EnvelopeOf(o).id, next, true);
        case Raise => r := CommitFailed;
        case Refuse =>
          Others(me);
          r := AfterLostInsert(o, target, me);
      }
    }

    /** The response that won the race, re-read. */
    method AfterLostInsert(o: Outcome, target: Target, ghost me: nat) returns (r: Result)
      requires Valid() && me < |savers| && savers[me].outcome == o && savers[me].target == target
        && savers[me].phase.Retrying?
      modifies this
      ensures Valid() && old(log) <= log && me < |savers| && savers[me] == old(savers[me]).(phase := Done(r))
        && !r.Invalid?
    {
      var existing := FindByMessage(responses, o.message, |responses|);
      Record(DoAdvance(me, Clean), State());
      if existing.None? { return Raised; }
      r := SaveExisting(responses[existing.value], o, target, me);
    }

    /** Adds the delivery of a response that has none. */
    method CreateMissingDelivery(row: Response, o: Outcome, target: Target, ghost me: nat) returns (r: Result)
      requires Valid() && me < |savers| && savers[me].outcome == o && savers[me].target == target
        && savers[me].phase.Missing?
      requires row.id == EnvelopeOf(o).id
      modifies this
      ensures Valid() && old(log) <= log && me < |savers| && savers[me] == old(savers[me]).(phase := Done(r))
        && !r.Invalid?
    {
      var unexpected := FindAnyDelivery(deliveries, row.id, |deliveries|);
      Record(DoAdvance(me, Clean), State());
      if unexpected.Some? {
        return if deliveries[unexpected.value].target == target then Saved(row.id, unexpected.value, false)
          else Conflict;
      }
      Others(me);
      var next := |deliveries|;
      var report: CommitReport := *;
      var written := AddDelivery(o, target, report, me);
      match written {
        case Accept => r := Saved(row.id, next, true);
        case Raise => r := CommitFailed;
        case Refuse =>
          Others(me);
          r := AfterLostAdd(o, target, me);
      }
    }

    /** The transaction of a delivery for a response that is there. */
    method AddDelivery(o: Outcome, target: Target, report: CommitReport, ghost me: nat) returns (written: Written)
      requires Valid() && me < |savers| && savers[me].outcome == o && savers[me].target == target
        && savers[me].phase.Adding?
      modifies this
      ensures Valid() && old(log) <= log && State() == Advance(old(State()), me, report)
      ensures written
        == (if report.LostAndRaised? then Raise else if DeliveryTaken(old(deliveries), DeliveryFor(o, target))
        then Refuse
                          else if report.Clean? then Accept else Raise)
      ensures written.Accept? ==> DeliveryFor(o, target) in deliveries
      ensures responses == old(responses)
        && (written.Refuse? || report.LostAndRaised? ==> deliveries == old(deliveries))
    {
      ghost var before := State();
      var delivery := DeliveryFor(o, target);
      var free := !DeliveryTaken(deliveries, delivery);
      if !report.LostAndRaised? && free { deliveries := deliveries + [delivery]; }
      written := if report.LostAndRaised? then Raise else if !free then Refuse else if report.Clean? then Accept
        else Raise;
      Record(DoAdvance(me, report), before);
    }

    /** The delivery that won the race, re-read together with its response. */
    method AfterLostAdd(o: Outcome, target: Target, ghost me: nat) returns (r: Result)
      requires Valid() && me < |savers| && savers[me].outcome == o && savers[me].target == target
        && savers[me].phase.AddFailed?
      modifies this
      ensures Valid() && old(log) <= log && me < |savers| && savers[me] == old(savers[me]).(phase := Done(r))
        && !r.Invalid?
    {
      var existing := FindByMessage(responses, o.message, |responses|);
      var concurrent := FindTarget(EnvelopeOf(o).id, target);
      Record(DoAdvance(me, Clean), State());
      if existing.None? {
        r := Raised;
      } else if !Compatible(responses[existing.value], o) {
        r := Conflict;
      } else if concurrent.None? {
        r := Raised;
      } else {
        r := Saved(EnvelopeOf(o).id, concurrent.value, false);
      }
    }

    /**
     What an operator needs to confirm a success: a stored result that agrees with whatever response exists. In a
     reachable state it is there exactly when the dispatch has a stored result that can be saved; an uncertain dispatch,
     the only kind an operator may decide, never has one.
     */
    method SuccessEvidence(d: nat) returns (e: Recovery.Evidence)
      requires Valid() && d < |table|
      ensures e.Verified? <==> d in raws && Saveable(ToOutcome(raws[d], table[d]))
      ensures d !in raws <==> e == Recovery.Refused("dispatch_response_missing")
      ensures table[d].status.Uncertain? ==> e == Recovery.Refused("dispatch_response_missing")
      ensures e == Operators.EvidenceFor(State(), d)
    {
      Consistent();
      if d !in raws { return Recovery.Refused("dispatch_response_missing"); }
      var o := ToOutcome(raws[d], table[d]);
      var existing := FindByMessage(responses, o.message, |responses|);
      ResponseAgrees(d);
      if !Saveable(o) || (existing.Some? && !Compatible(responses[existing.value], o)) {
        return Recovery.Refused("hermes_response_mismatch");
      }
      e := Recovery.Verified(d);
    }

    lemma ResponseAgrees(d: nat)
      requires Valid() && d in raws
      ensures d < |table| && forall i: nat :: i < |responses| && responses[i].message == table[d].message ==>
        Compatible(responses[i], ToOutcome(raws[d], table[d]))
    {
      Consistent();
      StoredResultIsFaithful(State(), targetOf, d);
      forall i: nat | i < |responses| && responses[i].message == table[d].message
        ensures Compatible(responses[i], ToOutcome(raws[d], table[d]))
      {
        assert origins[i] in raws && origins[i] == d;
      }
    }
  }
}
