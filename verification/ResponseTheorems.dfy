/** What the convergence invariant means for the callers of a save. */
module ResponseTheorems {
  import opened Basics
  import Queue = DispatchQueue
  import opened ResponsePersistence
  import opened ResponseConvergence

  predicate IsSaved(s: Saver) {
    s.phase.Done? && s.phase.result.Saved?
  }

  /**
   However direct saves and reconciliation interleave, all saves of a message end with one response row, the parts the
   stored result calls for and one delivery, and at most one of them is told that it created it.
   */
  lemma SavesConverge(acts: seq<Action>, targetOf: nat -> Target, j: nat, k: nat)
    requires var w := Run(INITIAL, acts, targetOf);
      && j < |w.savers| && k < |w.savers| && IsSaved(w.savers[j]) && IsSaved(w.savers[k])
      && w.savers[j].outcome.message == w.savers[k].outcome.message
    ensures var w := Run(INITIAL, acts, targetOf);
      var x, y := w.savers[j].phase.result, w.savers[k].phase.result;
      && x.response == y.response && x.delivery == y.delivery && (j != k ==> !x.created || !y.created)
      && RowOf(w.savers[j].outcome) in w.responses
      && (forall r :: r in w.responses && r.message == w.savers[j].outcome.message ==> r == RowOf(w.savers[j].outcome))
      && (forall i: nat :: i < |w.deliveries| && w.deliveries[i].response == x.response ==> i == x.delivery)
  {
    var w := Run(INITIAL, acts, targetOf);
    InitialInv(targetOf);
    RunKeeps(INITIAL, acts, targetOf);
    SaverOkOf(w, targetOf, j);
    SaverOkOf(w, targetOf, k);
    forall i: nat | i < |w.deliveries| && w.deliveries[i].response == w.savers[j].phase.result.response
      ensures i == w.savers[j].phase.result.delivery
    {
      DeliveryIsOurs(w, targetOf, j, i);
    }
    FoundIsOurs(w, targetOf, j);
    FoundIsOurs(w, targetOf, k);
  }

  /**
   The row holds this outcome: the parts of its envelope under that name, or its text alone under the message's name.
   */
  predicate Holds(r: Response, o: Outcome) {
    && r.message == o.message && r.workspace == o.workspace && r.thread == o.thread
    && (match o.envelope
        case Some(e) => r.id == e.id && r.parts == e.parts
        case None =>
          && r.id == "legacy-response:message:" + Digits(o.message)
          && r.parts == [TextPart(o.content)] && o.content != "")
  }

  /** Every response row of every run holds the outcome that one successful dispatch stored. */
  lemma RowHoldsItsOutcome(acts: seq<Action>, targetOf: nat -> Target, i: nat)
    requires i < |Run(INITIAL, acts, targetOf).responses|
    ensures var w := Run(INITIAL, acts, targetOf);
      && i < |w.origins| && w.origins[i] in w.outcomes && Holds(w.responses[i], w.outcomes[w.origins[i]])
      && w.origins[i] < |w.table| && w.table[w.origins[i]].status.Success?
      && w.table[w.origins[i]].message == w.responses[i].message
  {
    InitialInv(targetOf);
    RunKeeps(INITIAL, acts, targetOf);
    var w := Run(INITIAL, acts, targetOf);
    assert w.origins[i] in w.raws;
  }

  /**
   A save that reports success names a row that holds its outcome, and a delivery of that row to the message's address.
   */
  lemma SavedIsTheAnswer(acts: seq<Action>, targetOf: nat -> Target, k: nat)
    requires var w := Run(INITIAL, acts, targetOf); k < |w.savers| && IsSaved(w.savers[k])
    ensures var w := Run(INITIAL, acts, targetOf);
      var s, x := w.savers[k], w.savers[k].phase.result;
      && s.dispatch in w.outcomes && s.outcome == w.outcomes[s.dispatch]
      && (exists r :: r in w.responses && r.id == x.response && Holds(r, s.outcome))
      && x.delivery < |w.deliveries|
      && w.deliveries[x.delivery] == Delivery(s.outcome.message, x.response, targetOf(s.outcome.message))
  {
    InitialInv(targetOf);
    RunKeeps(INITIAL, acts, targetOf);
    SaverOkOf(Run(INITIAL, acts, targetOf), targetOf, k);
  }

  /**
   No delivery has two saves that are told they created it, and it has one exactly when the commit that wrote it
   reported back.
   */
  lemma OneCreatorIff(acts: seq<Action>, targetOf: nat -> Target, d: nat)
    requires d < |Run(INITIAL, acts, targetOf).deliveries|
    ensures var w := Run(INITIAL, acts, targetOf);
      && |w.reports| == |w.deliveries|
      && ((exists k: nat :: CreatedBy(w, d, k)) <==> w.reports[d].Clean?)
      && (forall j: nat, k: nat :: CreatedBy(w, d, j) && CreatedBy(w, d, k) ==> j == k)
  {
    var w := Run(INITIAL, acts, targetOf);
    InitialInv(targetOf);
    RunKeeps(INITIAL, acts, targetOf);
    if w.reports[d].Clean? { assert CreatedBy(w, d, w.creators[d]); }
  }

  /** A stored result belongs to a dispatch that succeeded, so an uncertain dispatch never has one. */
  lemma UncertainHasNoResult(acts: seq<Action>, targetOf: nat -> Target, d: nat)
    requires var w := Run(INITIAL, acts, targetOf); d < |w.table| && w.table[d].status.Uncertain?
    ensures d !in Run(INITIAL, acts, targetOf).raws
  {
    InitialInv(targetOf);
    RunKeeps(INITIAL, acts, targetOf);
  }

  predicate CreatedBy(w: World, d: nat, k: nat) {
    k < |w.savers| && Creates(w.savers[k]) && w.savers[k].phase.result.delivery == d
  }

  ghost predicate Grows(w: World, w': World) {
    && w.responses <= w'.responses && w.deliveries <= w'.deliveries
    && (forall d :: d in w.outcomes ==> d in w'.outcomes && w'.outcomes[d] == w.outcomes[d])
  }

  lemma AdvanceGrows(w: World, k: nat, report: CommitReport)
    ensures Grows(w, Advance(w, k, report))
  {
    if k < |w.savers| && Advance(w, k, report).deliveries != w.deliveries {
      assert Advance(w, k, report) == Write(w, k, w.savers[k].phase.Inserting?, report);
    }
  }

  lemma StepGrows(w: World, act: Action, targetOf: nat -> Target)
    requires w.raws.Keys == w.outcomes.Keys
    ensures Grows(w, Step(w, act, targetOf))
  {
    match act
    case DoComplete(d, token, o, r, at) => assert Completing(w, d, token, o, r, at).Completed? ==> d !in w.outcomes;
    case DoAdvance(k, report) => AdvanceGrows(w, k, report);
    case _ =>
  }

  /** Nothing saved is ever changed or removed. */
  lemma {:induction false} SavedStays(w: World, acts: seq<Action>, targetOf: nat -> Target)
    requires Inv(w, targetOf)
    ensures Grows(w, Run(w, acts, targetOf))
    decreases |acts|
  {
    if acts != [] {
      StepGrows(w, acts[0], targetOf);
      StepKeeps(w, acts[0], targetOf);
      SavedStays(Step(w, acts[0], targetOf), acts[1..], targetOf);
    }
  }

  // ----- When a save can fail -----

  /** Save `k` takes this many steps and nobody else does; its commit reports back. */
  function Alone(w: World, k: nat, steps: nat): World
    decreases steps
  {
    if steps == 0 then w else Alone(Advance(w, k, Clean), k, steps - 1)
  }

  /** Another message's response already has the identifier this outcome would use. */
  ghost predicate Foreign(w: World, o: Outcome) {
    exists r :: r in w.responses && r.id == EnvelopeOf(o).id && r.message != o.message
  }

  lemma {:induction false} AloneKeeps(w: World, targetOf: nat -> Target, k: nat, steps: nat)
    requires Inv(w, targetOf)
    ensures Inv(Alone(w, k, steps), targetOf)
    decreases steps
  {
    if steps > 0 {
      AdvanceKeeps(w, targetOf, k, Clean);
      AloneKeeps(Advance(w, k, Clean), targetOf, k, steps - 1);
    }
  }

  lemma DoneStays(w: World, k: nat, steps: nat)
    requires k < |w.savers| && w.savers[k].phase.Done?
    ensures Alone(w, k, steps) == w
  {
    if steps > 0 {
      assert Advance(w, k, Clean).savers == w.savers;
    }
  }

  lemma TakenNamesRow(responses: seq<Response>, deliveries: seq<Delivery>, o: Outcome, target: Target,
                      targetOf: nat -> Target)
    requires DeliveriesOk(responses, deliveries, targetOf) && DeliveryTaken(deliveries, DeliveryFor(o, target))
    ensures exists r :: r in responses && (r.message == o.message || r.id == EnvelopeOf(o).id)
  {
    var j :| 0 <= j < |deliveries| && deliveries[j].target == target
             && (deliveries[j].response == EnvelopeOf(o).id || deliveries[j].message == o.message);
    assert Carried(responses, deliveries[j]);
    var r :| r in responses && r.id == deliveries[j].response && r.message == deliveries[j].message;
    assert r.message == o.message || r.id == EnvelopeOf(o).id;
  }

  /** An insert is refused exactly because of a response of this message or a foreign identifier. */
  lemma InsertRefusedIff(w: World, targetOf: nat -> Target, k: nat)
    requires Inv(w, targetOf) && k < |w.savers|
    ensures !CanInsert(w, w.savers[k].outcome, w.savers[k].target) <==>
      FindByMessage(w.responses, w.savers[k].outcome.message, |w.responses|).Some? || Foreign(w, w.savers[k].outcome)
  {
    var o, target := w.savers[k].outcome, w.savers[k].target;
    if DeliveryTaken(w.deliveries, DeliveryFor(o, target)) {
      TakenNamesRow(w.responses, w.deliveries, o, target, targetOf);
    }
    if IdTaken(w.responses, EnvelopeOf(o).id) {
      var i :| 0 <= i < |w.responses| && w.responses[i].id == EnvelopeOf(o).id;
      assert w.responses[i] in w.responses;
    }
    if Foreign(w, o) {
      var r :| r in w.responses && r.id == EnvelopeOf(o).id && r.message != o.message;
      var i :| 0 <= i < |w.responses| && w.responses[i] == r;
      assert IdTaken(w.responses, EnvelopeOf(o).id);
    }
  }

  /** Any delivery of our response is found under our address. */
  lemma NoOtherDelivery(w: World, targetOf: nat -> Target, k: nat)
    requires Inv(w, targetOf) && k < |w.savers| && Past(w.savers[k].phase)
    requires FindDelivery(w.deliveries, EnvelopeOf(w.savers[k].outcome).id, w.savers[k].target, |w.deliveries|).None?
    ensures FindAnyDelivery(w.deliveries, EnvelopeOf(w.savers[k].outcome).id, |w.deliveries|).None?
  {
    SaverOkOf(w, targetOf, k);
    forall j: nat | j < |w.deliveries| ensures w.deliveries[j].response != EnvelopeOf(w.savers[k].outcome).id {
      if w.deliveries[j].response == EnvelopeOf(w.savers[k].outcome).id {
        DeliveryIsOurs(w, targetOf, k, j);
      }
    }
  }

  /** With its response in place a save finds the delivery or adds it. */
  lemma MatchedSucceeds(w: World, targetOf: nat -> Target, k: nat)
    requires Inv(w, targetOf) && k < |w.savers| && w.savers[k].phase.Matched?
    ensures k < |Alone(w, k, 3).savers| && IsSaved(Alone(w, k, 3).savers[k])
  {
    var w1 := Advance(w, k, Clean);
    AdvanceKeeps(w, targetOf, k, Clean);
    if w1.savers[k].phase.Done? {
      DoneStays(w1, k, 2);
    } else {
      NoOtherDelivery(w, targetOf, k);
      MissingSucceeds(w1, targetOf, k);
    }
  }

  lemma MissingSucceeds(w: World, targetOf: nat -> Target, k: nat)
    requires Inv(w, targetOf) && k < |w.savers| && w.savers[k].phase.Missing?
    requires FindAnyDelivery(w.deliveries, EnvelopeOf(w.savers[k].outcome).id, |w.deliveries|).None?
    ensures k < |Alone(w, k, 2).savers| && IsSaved(Alone(w, k, 2).savers[k])
  {
    var w1 := Advance(w, k, Clean);
    AdvanceKeeps(w, targetOf, k, Clean);
    AddSucceeds(w1, targetOf, k);
    assert Alone(w1, k, 1) == Advance(w1, k, Clean);
  }

  lemma AddSucceeds(w: World, targetOf: nat -> Target, k: nat)
    requires Inv(w, targetOf) && k < |w.savers| && w.savers[k].phase.Adding?
    requires FindAnyDelivery(w.deliveries, EnvelopeOf(w.savers[k].outcome).id, |w.deliveries|).None?
    ensures k < |Advance(w, k, Clean).savers| && IsSaved(Advance(w, k, Clean).savers[k])
  {
    SaverOkOf(w, targetOf, k);
    TakenIsOurs(w, targetOf, k);
  }

  /** The only delivery that can stand in the way of ours is ours. */
  lemma TakenIsOurs(w: World, targetOf: nat -> Target, k: nat)
    requires Inv(w, targetOf) && k < |w.savers| && RowOf(w.savers[k].outcome) in w.responses
    ensures DeliveryTaken(w.deliveries, DeliveryFor(w.savers[k].outcome, w.savers[k].target)) ==>
      DeliveryFor(w.savers[k].outcome, w.savers[k].target) in w.deliveries
  {
    var o, target := w.savers[k].outcome, w.savers[k].target;
    if DeliveryTaken(w.deliveries, DeliveryFor(o, target)) {
      var j :| 0 <= j < |w.deliveries| && w.deliveries[j].target == target
               && (w.deliveries[j].response == EnvelopeOf(o).id || w.deliveries[j].message == o.message);
      assert Carried(w.responses, w.deliveries[j]);
      var r :| r in w.responses && r.id == w.deliveries[j].response && r.message == w.deliveries[j].message;
      var i :| 0 <= i < |w.responses| && w.responses[i] == r;
      if r.message == o.message { OneOutcome(w, targetOf, i, k); }
      DeliveryIsOurs(w, targetOf, k, j);
    }
  }

  /**
   A save that runs undisturbed succeeds exactly when the outcome can be saved and no other message's response has taken
   its identifier, unless the response is already there.
   */
  lemma SaveSucceedsIff(w: World, targetOf: nat -> Target, k: nat)
    requires Inv(w, targetOf) && k < |w.savers| && w.savers[k].phase.Begin?
    ensures k < |Alone(w, k, 4).savers| && (IsSaved(Alone(w, k, 4).savers[k]) <==>
      Saveable(w.savers[k].outcome)
      && (FindByMessage(w.responses, w.savers[k].outcome.message, |w.responses|).Some?
            || !Foreign(w, w.savers[k].outcome)))
  {
    var o := w.savers[k].outcome;
    FoundIsOurs(w, targetOf, k);
    var w1 := Advance(w, k, Clean);
    AdvanceKeeps(w, targetOf, k, Clean);
    if !Saveable(o) {
      DoneStays(w1, k, 3);
    } else if w1.savers[k].phase.Matched? {
      MatchedSucceeds(w1, targetOf, k);
    } else {
      InsertRefusedIff(w, targetOf, k);
      InsertAlone(w1, k);
    }
  }

  lemma InsertAlone(w: World, k: nat)
    requires k < |w.savers| && w.savers[k].phase.Inserting?
    requires FindByMessage(w.responses, w.savers[k].outcome.message, |w.responses|).None?
    ensures k < |Alone(w, k, 3).savers|
    ensures Alone(w, k, 3).savers[k].phase ==
      if CanInsert(w, w.savers[k].outcome, w.savers[k].target)
      then Done(Saved(EnvelopeOf(w.savers[k].outcome).id, |w.deliveries|, true)) else Done(Raised)
  {
    var w1 := Advance(w, k, Clean);
    if CanInsert(w, w.savers[k].outcome, w.savers[k].target) {
      DoneStays(w1, k, 2);
    } else {
      var w2 := Advance(w1, k, Clean);
      assert w2.savers[k].phase == Done(Raised);
      DoneStays(w2, k, 1);
    }
  }

  // ----- Which identifiers can collide -----

  lemma {:induction false} DigitsInjective(m: nat, n: nat)
    requires Digits(m) == Digits(n)
    ensures m == n
    decreases m
  {
    LastDigit(m);
    LastDigit(n);
    if m >= 10 && n >= 10 {
      assert Digits(m)[..|Digits(m)| - 1] == Digits(m / 10) && Digits(n)[..|Digits(n)| - 1] == Digits(n / 10);
      DigitsInjective(m / 10, n / 10);
    }
  }

  function Digit(n: nat): char {
    ['0', '1', '2', '3', '4', '5', '6', '7', '8', '9'][n % 10]
  }

  lemma LastDigit(n: nat)
    ensures Digits(n)[|Digits(n)| - 1] == Digit(n)
    ensures |Digits(n)| == 1 <==> n < 10
    ensures Digit(n) as int - 48 == n % 10
  {
  }

  /** Two stored results claim one response identifier exactly when a Hermes identifier imitates a legacy one. */
  lemma IdentifiersCollideIff(w: World, targetOf: nat -> Target, c: nat, d: nat)
    requires Inv(w, targetOf) && c in w.outcomes && d in w.outcomes && c != d
    ensures EnvelopeOf(w.outcomes[c]).id == EnvelopeOf(w.outcomes[d]).id <==>
      (var x, y := w.outcomes[c], w.outcomes[d];
       || (x.envelope.Some? && y.envelope.None? && x.envelope.value.id == StableId(y.message))
       || (x.envelope.None? && y.envelope.Some? && y.envelope.value.id == StableId(x.message)))
  {
    var x, y := w.outcomes[c], w.outcomes[d];
    assert c in w.raws && d in w.raws && x.message != y.message;
    if x.envelope.None? && y.envelope.None? && StableId(x.message) == StableId(y.message) {
      var head := "legacy-response:message:";
      assert StableId(x.message)[|head|..] == Digits(x.message) && StableId(y.message)[|head|..] == Digits(y.message);
      DigitsInjective(x.message, y.message);
      assert false;
    }
  }

  // ----- No save fails -----

  ghost predicate NoImitation(outcomes: map<nat, Outcome>) {
    forall c: nat, d: nat :: c in outcomes && d in outcomes && c != d ==>
      EnvelopeOf(outcomes[c]).id != EnvelopeOf(outcomes[d]).id
  }

  ghost predicate Calm(responses: seq<Response>, deliveries: seq<Delivery>, s: Saver) {
    && s.phase != Done(Conflict) && s.phase != Done(Raised)
    && (s.phase.Retrying? ==> RowOf(s.outcome) in responses)
    && (s.phase.AddFailed? ==> DeliveryFor(s.outcome, s.target) in deliveries)
  }

  ghost predicate AllCalm(w: World) {
    forall k: nat :: k < |w.savers| ==> Calm(w.responses, w.deliveries, w.savers[k])
  }

  lemma NotForeign(w: World, targetOf: nat -> Target, k: nat)
    requires Inv(w, targetOf) && NoImitation(w.outcomes) && k < |w.savers|
    ensures !Foreign(w, w.savers[k].outcome)
  {
    var o := w.savers[k].outcome;
    SaverOkOf(w, targetOf, k);
    forall i: nat | i < |w.responses| && w.responses[i].id == EnvelopeOf(o).id
      ensures w.responses[i].message == o.message
    {
      assert w.origins[i] == w.savers[k].dispatch;
    }
  }

  lemma RefusedIsFound(w: World, targetOf: nat -> Target, k: nat)
    requires Inv(w, targetOf) && NoImitation(w.outcomes) && k < |w.savers|
    requires !CanInsert(w, w.savers[k].outcome, w.savers[k].target)
    ensures RowOf(w.savers[k].outcome) in w.responses
  {
    NotForeign(w, targetOf, k);
    InsertRefusedIff(w, targetOf, k);
    FoundIsOurs(w, targetOf, k);
  }

  lemma LookIsCalm(w: World, targetOf: nat -> Target, k: nat)
    requires Inv(w, targetOf) && k < |w.savers| && Calm(w.responses, w.deliveries, w.savers[k])
    requires !w.savers[k].phase.Inserting? && !w.savers[k].phase.Adding?
    ensures Calm(w.responses, w.deliveries, w.savers[k].(phase := Look(w, w.savers[k])))
  {
    var s := w.savers[k];
    FoundIsOurs(w, targetOf, k);
    SaverOkOf(w, targetOf, k);
    if s.phase.Missing? {
      var any := FindAnyDelivery(w.deliveries, EnvelopeOf(s.outcome).id, |w.deliveries|);
      if any.Some? { DeliveryIsOurs(w, targetOf, k, any.value); }
    }
  }

  lemma CalmStays(responses: seq<Response>, deliveries: seq<Delivery>, responses': seq<Response>,
                  deliveries': seq<Delivery>, s: Saver)
    requires Calm(responses, deliveries, s) && responses <= responses' && deliveries <= deliveries'
    ensures Calm(responses', deliveries', s)
  {
  }

  lemma AdvanceMovesOne(w: World, k: nat, report: CommitReport)
    requires k < |w.savers|
    ensures |Advance(w, k, report).savers| == |w.savers|
    ensures forall j: nat :: j < |w.savers| && j != k ==> Advance(w, k, report).savers[j] == w.savers[j]
  {
    var s := w.savers[k];
    if !s.phase.Inserting? && !s.phase.Adding? { assert Advance(w, k, report) == AtPhase(w, k, Look(w, s)); }
  }

  lemma AdvanceIsCalm(w: World, targetOf: nat -> Target, k: nat, report: CommitReport, w': World)
    requires Inv(w, targetOf) && NoImitation(w.outcomes) && AllCalm(w) && w' == Advance(w, k, report)
    ensures AllCalm(w')
  {
    if k < |w.savers| {
      SaverIsCalm(w, targetOf, k, report);
      AdvanceGrows(w, k, report);
      AdvanceMovesOne(w, k, report);
      forall j: nat | j < |w'.savers| ensures Calm(w'.responses, w'.deliveries, w'.savers[j]) {
        if j != k { CalmStays(w.responses, w.deliveries, w'.responses, w'.deliveries, w.savers[j]); }
      }
    }
  }

  lemma SaverIsCalm(w: World, targetOf: nat -> Target, k: nat, report: CommitReport)
    requires Inv(w, targetOf) && NoImitation(w.outcomes) && AllCalm(w) && k < |w.savers|
    ensures k < |Advance(w, k, report).savers|
    ensures Calm(Advance(w, k, report).responses, Advance(w, k, report).deliveries, Advance(w, k, report).savers[k])
  {
    var s := w.savers[k];
    if s.phase.Inserting? {
      InserterIsCalm(w, targetOf, k, report, Advance(w, k, report));
    } else if s.phase.Adding? {
      AdderIsCalm(w, targetOf, k, report, Advance(w, k, report));
    } else {
      LookIsCalm(w, targetOf, k);
      assert Advance(w, k, report) == AtPhase(w, k, Look(w, s));
    }
  }

  lemma InserterIsCalm(w: World, targetOf: nat -> Target, k: nat, report: CommitReport, w': World)
    requires Inv(w, targetOf) && NoImitation(w.outcomes) && k < |w.savers| && w' == Advance(w, k, report)
    requires w.savers[k].phase.Inserting?
    ensures k < |w'.savers| && Calm(w'.responses, w'.deliveries, w'.savers[k])
  {
    if !CanInsert(w, w.savers[k].outcome, w.savers[k].target) { RefusedIsFound(w, targetOf, k); }
  }

  lemma AdderIsCalm(w: World, targetOf: nat -> Target, k: nat, report: CommitReport, w': World)
    requires Inv(w, targetOf) && k < |w.savers| && w' == Advance(w, k, report) && w.savers[k].phase.Adding?
    ensures k < |w'.savers| && Calm(w'.responses, w'.deliveries, w'.savers[k])
  {
    SaverOkOf(w, targetOf, k);
    TakenIsOurs(w, targetOf, k);
  }

  lemma StepIsCalm(w: World, act: Action, targetOf: nat -> Target)
    requires Inv(w, targetOf) && NoImitation(w.outcomes) && AllCalm(w)
    ensures AllCalm(Step(w, act, targetOf))
  {
    if act.DoAdvance? {
      AdvanceIsCalm(w, targetOf, act.saver, act.report, Step(w, act, targetOf));
    } else {
      var w' := Step(w, act, targetOf);
      forall j: nat | j < |w'.savers| ensures Calm(w'.responses, w'.deliveries, w'.savers[j]) {
        if j < |w.savers| { assert Calm(w.responses, w.deliveries, w.savers[j]); }
      }
    }
  }

  /**
   Unless an identifier imitates a legacy one, no interleaving makes any save of a stored result conflict or raise.
   */
  lemma {:induction false} NoSaveFails(w: World, acts: seq<Action>, targetOf: nat -> Target)
    requires Inv(w, targetOf) && AllCalm(w) && NoImitation(Run(w, acts, targetOf).outcomes)
    ensures AllCalm(Run(w, acts, targetOf))
    decreases |acts|
  {
    SavedStays(w, acts, targetOf);
    if acts != [] {
      StepKeeps(w, acts[0], targetOf);
      StepIsCalm(w, acts[0], targetOf);
      NoSaveFails(Step(w, acts[0], targetOf), acts[1..], targetOf);
    }
  }
}
