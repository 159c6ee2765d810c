/** Runs from empty tables in which a save does not end the way its caller would hope. */
module ResponseRuns {
  import opened Basics
  import Queue = DispatchQueue
  import opened ResponsePersistence
  import opened ResponseConvergence
  import opened ResponseTheorems

  lemma {:induction false} RunAppend(w: World, first: seq<Action>, second: seq<Action>, targetOf: nat -> Target)
    ensures Run(w, first + second, targetOf) == Run(Run(w, first, targetOf), second, targetOf)
    decreases |first|
  {
    if first == [] {
      assert first + second == second;
    } else {
      assert (first + second)[1..] == first[1..] + second;
      RunAppend(Step(w, first[0], targetOf), first[1..], second, targetOf);
    }
  }

  lemma Three(w: World, a: Action, w1: World, b: Action, w2: World, c: Action, w3: World, targetOf: nat -> Target)
    requires w1 == Step(w, a, targetOf) && w2 == Step(w1, b, targetOf) && w3 == Step(w2, c, targetOf)
    ensures Run(w, [a, b, c], targetOf) == w3
  {
    assert [a, b, c][1..] == [b, c] && [b, c][1..] == [c] && [c][1..] == [];
    assert Run(w2, [c], targetOf) == w3;
    assert Run(w1, [b, c], targetOf) == w3;
  }

  lemma Joined(first: seq<Action>, w: World, second: seq<Action>, w': World, targetOf: nat -> Target)
    requires Run(INITIAL, first, targetOf) == w && Run(w, second, targetOf) == w'
    ensures Run(INITIAL, first + second, targetOf) == w'
  {
    RunAppend(INITIAL, first, second, targetOf);
  }

  // ----- A dispatch that succeeds -----

  function TargetOf(o: Outcome): Queue.Target {
    Queue.Target("identity", o.workspace, o.thread)
  }

  function Called(d: nat, o: Outcome): seq<Action> {
    [DoWork(Queue.DoEnqueue(o.message, TargetOf(o), 0), 0), DoWork(Queue.DoClaim(d, "token", 60, 0), 0),
     DoComplete(d, "token", o, Rotation(None, None), 0)]
  }

  function Answered(w: World, o: Outcome): World {
    var d := |w.table|;
    w.(table := w.table + [Queue.Dispatch(o.message, TargetOf(o), Queue.Success, 1, false, None, None, 0, None)],
       raws := w.raws[d := RawOf(o)], outcomes := w.outcomes[d := o])
  }

  function Waiting(o: Outcome): Queue.Dispatch {
    Queue.Dispatch(o.message, TargetOf(o), Queue.Queued, 0, false, None, None, 0, None)
  }

  function Taken(o: Outcome): Queue.Dispatch {
    Waiting(o).(status := Queue.Running, attempts := 1, token := Some("token"), lease := Some(60))
  }

  ghost predicate New(t: Queue.Table, o: Outcome) {
    forall i: nat :: i < |t| ==> t[i].message != o.message && t[i].target.thread != o.thread
  }

  lemma CallStarts(t: Queue.Table, o: Outcome)
    requires New(t, o)
    ensures Queue.Step(t, Queue.DoEnqueue(o.message, TargetOf(o), 0), 0) == t + [Waiting(o)]
    ensures Queue.Step(t + [Waiting(o)], Queue.DoClaim(|t|, "token", 60, 0), 0) == t + [Taken(o)]
  {
    assert Queue.FindMessage(t, o.message, |t|).None?;
    assert Queue.CanClaim(t + [Waiting(o)], |t|, 0);
    assert (t + [Waiting(o)])[|t| := Taken(o)] == t + [Taken(o)];
  }

  lemma CallEnds(w: World, o: Outcome, targetOf: nat -> Target)
    requires |w.table| !in w.raws && !HermesIdTaken(w.raws, RawOf(o).hermesId)
    ensures Step(w.(table := w.table + [Taken(o)]), Called(|w.table|, o)[2], targetOf) == Answered(w, o)
  {
    var d, w' := |w.table|, w.(table := w.table + [Taken(o)]);
    assert Completing(w', d, "token", o, Rotation(None, None), 0).Completed?;
    assert w'.table[d := Answered(w, o).table[d]] == Answered(w, o).table;
  }

  /** A message of a new thread is queued, claimed and answered. */
  lemma CallSucceeds(w: World, o: Outcome, targetOf: nat -> Target)
    requires New(w.table, o) && |w.table| !in w.raws && !HermesIdTaken(w.raws, RawOf(o).hermesId)
    ensures Run(w, Called(|w.table|, o), targetOf) == Answered(w, o)
  {
    var acts := Called(|w.table|, o);
    CallStarts(w.table, o);
    CallEnds(w, o, targetOf);
    Three(w, acts[0], w.(table := w.table + [Waiting(o)]), acts[1], w.(table := w.table + [Taken(o)]), acts[2],
      Answered(w, o), targetOf);
  }

  const PLAIN := Outcome(1, "workspace", "thread-1", "hello", None)

  // ----- Nobody is told -----

  function Saving(d: nat, o: Outcome, phase: Phase, targetOf: nat -> Target): Saver {
    Saver(d, o, targetOf(o.message), phase)
  }

  /** Both rows are there, written by save 0, which was told of an error. */
  function Unreported(targetOf: nat -> Target): World {
    var w := Answered(INITIAL, PLAIN);
    w.(savers := [Saving(0, PLAIN, Done(CommitFailed), targetOf)], responses := [RowOf(PLAIN)], origins := [0],
       deliveries := [DeliveryFor(PLAIN, targetOf(1))], creators := [0], reports := [LandedButRaised])
  }

  const LOST := [DoSave(0, Direct), DoAdvance(0, Clean), DoAdvance(0, LandedButRaised)]

  lemma CommitLandsUnreported(targetOf: nat -> Target)
    ensures Run(Answered(INITIAL, PLAIN), LOST, targetOf) == Unreported(targetOf)
  {
    var w := Answered(INITIAL, PLAIN);
    var w1 := w.(savers := [Saving(0, PLAIN, Begin, targetOf)]);
    assert w1 == Step(w, LOST[0], targetOf);
    var w2 := w.(savers := [Saving(0, PLAIN, Inserting, targetOf)]);
    assert w2 == Step(w1, LOST[1], targetOf);
    assert CanInsert(w2, PLAIN, targetOf(1));
    assert Unreported(targetOf) == Step(w2, LOST[2], targetOf);
    Three(w, LOST[0], w1, LOST[1], w2, LOST[2], Unreported(targetOf), targetOf);
  }

  const LATER := [DoSave(0, Reconciled), DoAdvance(1, Clean), DoAdvance(1, Clean)]

  lemma LaterSaveFindsIt(targetOf: nat -> Target)
    ensures Run(Unreported(targetOf), LATER, targetOf) ==
      var w := Unreported(targetOf);
      w.(savers := w.savers + [Saving(0, PLAIN, Done(Saved(StableId(1), 0, false)), targetOf)])
  {
    var w := Unreported(targetOf);
    var w1 := w.(savers := w.savers + [Saving(0, PLAIN, Begin, targetOf)]);
    assert w1 == Step(w, LATER[0], targetOf);
    var w2 := w.(savers := w.savers + [Saving(0, PLAIN, Matched, targetOf)]);
    assert w2 == Step(w1, LATER[1], targetOf);
    var w3 := w.(savers := w.savers + [Saving(0, PLAIN, Done(Saved(StableId(1), 0, false)), targetOf)]);
    assert FindDelivery(w.deliveries, StableId(1), targetOf(1), 1) == Some(0);
    assert w3 == Step(w2, LATER[2], targetOf);
    Three(w, LATER[0], w1, LATER[1], w2, LATER[2], w3, targetOf);
  }

  /** A commit lands and raises: the delivery exists, every save has ended, and none was told that it created it. */
  lemma NobodyIsTold(targetOf: nat -> Target) returns (acts: seq<Action>)
    ensures acts == Called(0, PLAIN) + LOST + LATER
    ensures var w := Run(INITIAL, acts, targetOf);
      && |w.deliveries| == 1 && w.reports == [LandedButRaised]
      && |w.savers| == 2 && w.savers[0].phase == Done(CommitFailed)
         && w.savers[1].phase == Done(Saved(StableId(1), 0, false))
      && forall k: nat :: !CreatedBy(w, 0, k)
  {
    acts := Called(0, PLAIN) + LOST + LATER;
    CallSucceeds(INITIAL, PLAIN, targetOf);
    CommitLandsUnreported(targetOf);
    LaterSaveFindsIt(targetOf);
    Joined(Called(0, PLAIN), Answered(INITIAL, PLAIN), LOST, Unreported(targetOf), targetOf);
    Joined(Called(0, PLAIN) + LOST, Unreported(targetOf), LATER, Run(Unreported(targetOf), LATER, targetOf), targetOf);
  }

  // ----- An identifier that imitates a legacy one -----

  const IMITATION :=
    Outcome(2, "workspace", "thread-2", "", Some(Envelope("legacy-response:message:1", [TextPart("hi")])))

  function TwoAnswers(): World {
    Answered(Answered(INITIAL, IMITATION), PLAIN)
  }

  function Imitated(targetOf: nat -> Target): World {
    TwoAnswers().(
      savers := [Saving(0, IMITATION, Done(Saved(StableId(1), 0, true)), targetOf)], responses := [RowOf(IMITATION)],
      origins := [0], deliveries := [DeliveryFor(IMITATION, targetOf(2))], creators := [0], reports := [Clean])
  }

  const TAKE := [DoSave(0, Direct), DoAdvance(0, Clean), DoAdvance(0, Clean)]

  lemma ImitationIsSaved(targetOf: nat -> Target)
    ensures Run(TwoAnswers(), TAKE, targetOf) == Imitated(targetOf)
  {
    var w := TwoAnswers();
    assert EnvelopeOf(IMITATION).id == StableId(1);
    var w1 := w.(savers := [Saving(0, IMITATION, Begin, targetOf)]);
    assert w1 == Step(w, TAKE[0], targetOf);
    var w2 := w.(savers := [Saving(0, IMITATION, Inserting, targetOf)]);
    assert w2 == Step(w1, TAKE[1], targetOf);
    assert CanInsert(w2, IMITATION, targetOf(2));
    assert Imitated(targetOf) == Step(w2, TAKE[2], targetOf);
    Three(w, TAKE[0], w1, TAKE[1], w2, TAKE[2], Imitated(targetOf), targetOf);
  }

  lemma LegacySaveRetries(targetOf: nat -> Target, w': World)
    requires var w := Imitated(targetOf); w' == w.(savers := w.savers + [Saving(1, PLAIN, Retrying, targetOf)])
    ensures Run(Imitated(targetOf), [DoSave(1, Direct), DoAdvance(1, Clean), DoAdvance(1, Clean)], targetOf) == w'
  {
    var w := Imitated(targetOf);
    var a, b := DoSave(1, Direct), DoAdvance(1, Clean);
    var w1 := w.(savers := w.savers + [Saving(1, PLAIN, Begin, targetOf)]);
    assert w1 == Step(w, a, targetOf);
    var w2 := w.(savers := w.savers + [Saving(1, PLAIN, Inserting, targetOf)]);
    assert w2 == Step(w1, b, targetOf);
    assert w.responses[0].id == EnvelopeOf(PLAIN).id && !CanInsert(w2, PLAIN, targetOf(1));
    assert w' == Step(w2, b, targetOf);
    Three(w, a, w1, b, w2, b, w', targetOf);
  }

  /**
   A stored result whose Hermes identifier is the legacy identifier of message 1 makes the save of message 1 raise.
   */
  lemma ImitationMakesSaveRaise(targetOf: nat -> Target) returns (acts: seq<Action>)
    ensures acts == Called(0, IMITATION) + Called(1, PLAIN) + TAKE
      + [DoSave(1, Direct), DoAdvance(1, Clean), DoAdvance(1, Clean)]
                    + [DoAdvance(1, Clean)]
    ensures var w := Run(INITIAL, acts, targetOf);
      |w.savers| == 2 && w.savers[1].phase == Done(Raised) && !NoImitation(w.outcomes)
  {
    var last := [DoSave(1, Direct), DoAdvance(1, Clean), DoAdvance(1, Clean)];
    var first := Called(0, IMITATION);
    var w1 := Answered(INITIAL, IMITATION);
    CallSucceeds(INITIAL, IMITATION, targetOf);
    assert IMITATION.thread[7] != PLAIN.thread[7];
    CallSucceeds(w1, PLAIN, targetOf);
    Joined(first, w1, Called(1, PLAIN), TwoAnswers(), targetOf);
    ImitationIsSaved(targetOf);
    Joined(first + Called(1, PLAIN), TwoAnswers(), TAKE, Imitated(targetOf), targetOf);
    var w := Imitated(targetOf);
    var w' := w.(savers := w.savers + [Saving(1, PLAIN, Retrying, targetOf)]);
    LegacySaveRetries(targetOf, w');
    Joined(first + Called(1, PLAIN) + TAKE, w, last, w', targetOf);
    acts := first + Called(1, PLAIN) + TAKE + last + [DoAdvance(1, Clean)];
    RaisesNext(targetOf, w');
    Joined(first + Called(1, PLAIN) + TAKE + last, w', [DoAdvance(1, Clean)], Step(w', DoAdvance(1, Clean), targetOf),
      targetOf);
  }

  lemma RaisesNext(targetOf: nat -> Target, w: World)
    requires w == Imitated(targetOf).(savers := Imitated(targetOf).savers + [Saving(1, PLAIN, Retrying, targetOf)])
    ensures var w' := Step(w, DoAdvance(1, Clean), targetOf);
      && Run(w, [DoAdvance(1, Clean)], targetOf) == w'
      && |w'.savers| == 2 && w'.savers[1].phase == Done(Raised) && !NoImitation(w'.outcomes)
  {
    var act := DoAdvance(1, Clean);
    var w' := Step(w, act, targetOf);
    assert [act][1..] == [] && Run(w', [act][1..], targetOf) == w';
    assert w.outcomes[0] == IMITATION && w.outcomes[1] == PLAIN && EnvelopeOf(IMITATION).id == EnvelopeOf(PLAIN).id;
  }
}
