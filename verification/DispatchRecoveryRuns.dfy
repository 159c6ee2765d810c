/** Runs from empty tables that show what operators can meet, and what each guard of a decision is needed for. */
module DispatchRecoveryRuns {
  import opened Basics
  import Queue = DispatchQueue
  import opened DispatchRecovery

  const TARGET := Queue.Target("identity", "workspace", "thread")
  const UNSURE := Queue.Dispatch(1, TARGET, Queue.Uncertain, 1, false, None, None, 0, Some("timeout"))
  const NOTHING := Refused("dispatch_response_missing")
  const FIRST := Proceed(0, NOTHING, Clean)
  const SECOND := Proceed(1, NOTHING, Clean)

  /** A run, where it leads, and how often dispatch 0 leaves the uncertain status on the way. */
  ghost predicate Leads(w: World, acts: seq<Action>, w': World, exits: nat, limit: nat, g: Guards) {
    RunWith(w, acts, limit, g) == w' && CountExits(w, acts, limit, g, 0) == exits
  }

  lemma {:induction false} Joined(w: World, first: seq<Action>, w1: World, m: nat, second: seq<Action>, w2: World,
                                  n: nat, limit: nat, g: Guards)
    requires Leads(w, first, w1, m, limit, g) && Leads(w1, second, w2, n, limit, g)
    ensures Leads(w, first + second, w2, m + n, limit, g)
    decreases |first|
  {
    if first == [] {
      assert first + second == second;
    } else {
      var w' := StepWith(w, first[0], limit, g);
      assert (first + second)[1..] == first[1..] + second;
      Joined(w', first[1..], w1, CountExits(w', first[1..], limit, g, 0), second, w2, n, limit, g);
    }
  }

  function Exit(w: World, w': World): nat {
    if Exits(w.table, w'.table, 0) then 1 else 0
  }

  lemma One(w: World, a: Action, w1: World, limit: nat, g: Guards)
    requires w1 == StepWith(w, a, limit, g)
    ensures Leads(w, [a], w1, Exit(w, w1), limit, g)
  {
    assert [a][1..] == [];
    assert RunWith(w1, [a][1..], limit, g) == w1 && CountExits(w1, [a][1..], limit, g, 0) == 0;
  }

  lemma Two(w: World, a: Action, w1: World, b: Action, w2: World, limit: nat, g: Guards)
    requires w1 == StepWith(w, a, limit, g) && w2 == StepWith(w1, b, limit, g)
    ensures Leads(w, [a, b], w2, Exit(w, w1) + Exit(w1, w2), limit, g)
  {
    One(w, a, w1, limit, g);
    One(w1, b, w2, limit, g);
    assert [a, b] == [a] + [b];
    Joined(w, [a], w1, Exit(w, w1), [b], w2, Exit(w1, w2), limit, g);
  }

  // ----- Two requests about one uncertain dispatch, both checked -----

  const CLAIM := Work(Queue.DoClaim(0, "token", 60, 0))
  const GIVE_UP := Work(Queue.DoComplete(0, "token", Queue.BecomeUncertain("timeout"), 0))

  function Queued(): World {
    World([Queue.Dispatch(1, TARGET, Queue.Queued, 0, false, None, None, 0, None)], [], [], [], [])
  }

  /** A dispatch that may run is claimed and its call ends without an answer. */
  lemma BecomesUncertain(w: World, limit: nat, g: Guards)
    requires |w.table| == 1 && w.table[0].target == TARGET && Queue.Claimable(w.table[0], limit)
      && !w.table[0].status.Uncertain?
    ensures Leads(w, [CLAIM, GIVE_UP],
      w.(table := [w.table[0].(status := Queue.Uncertain, attempts := w.table[0].attempts + 1, manualRetry := false,
                               token := None, lease := None, lastError := Some("timeout"))]), 0, limit, g)
  {
    assert Queue.CanClaim(w.table, 0, limit);
    var w1 := StepWith(w, CLAIM, limit, g);
    var w2 := StepWith(w1, GIVE_UP, limit, g);
    Two(w, CLAIM, w1, GIVE_UP, w2, limit, g);
    assert w2.table
      == [w.table[0].(status := Queue.Uncertain, attempts := w.table[0].attempts + 1, manualRetry := false,
                                    token := None, lease := None, lastError := Some("timeout"))];
  }

  function Opening(): seq<Action> {
    [Work(Queue.DoEnqueue(1, TARGET, 0))] + [CLAIM, GIVE_UP]
  }

  lemma OpeningRuns(limit: nat, g: Guards)
    ensures Leads(INITIAL, Opening(), World([UNSURE], [], [], [], []), 0, limit, g)
  {
    One(INITIAL, Opening()[0], Queued(), limit, g);
    BecomesUncertain(Queued(), limit, g);
    Joined(INITIAL, [Opening()[0]], Queued(), 0, [CLAIM, GIVE_UP], World([UNSURE], [], [], [], []), 0, limit, g);
  }

  function BothAt(x: Request, y: Request, phase: Phase): World {
    World([UNSURE], [], [Process(x, phase), Process(y, phase)], [], [])
  }

  lemma BothMove(x: Request, y: Request, from: Phase, to: Phase, limit: nat, g: Guards)
    requires x.key.dispatch == 0 && y.key.dispatch == 0 && !x.key.action.ConfirmSuccess?
      && !y.key.action.ConfirmSuccess?
    requires (from.Fresh? && to.LookedUp?) || (from.LookedUp? && to == Checked(Some("timeout"), None))
    ensures Leads(BothAt(x, y, from), [FIRST, SECOND], BothAt(x, y, to), 0, limit, g)
  {
    var w := BothAt(x, y, from);
    var w1 := StepWith(w, FIRST, limit, g);
    assert w1 == w.(processes := [Process(x, to), Process(y, from)]);
    var w2 := StepWith(w1, SECOND, limit, g);
    assert w2.processes == [Process(x, to), Process(y, to)];
    Two(w, FIRST, w1, SECOND, w2, limit, g);
  }

  lemma Submitted(x: Request, y: Request, limit: nat, g: Guards)
    ensures Leads(World([UNSURE], [], [], [], []), [Submit(x), Submit(y)], BothAt(x, y, Fresh), 0, limit, g)
  {
    var w := World([UNSURE], [], [], [], []);
    var w1 := w.(processes := [Process(x, Fresh)]);
    assert BothAt(x, y, Fresh).processes == w1.processes + [Process(y, Fresh)];
    Two(w, Submit(x), w1, Submit(y), BothAt(x, y, Fresh), limit, g);
  }

  function Looked(x: Request, y: Request): seq<Action> {
    Opening() + [Submit(x), Submit(y)] + [FIRST, SECOND]
  }

  lemma LookedRuns(x: Request, y: Request, limit: nat, g: Guards)
    requires x.key.dispatch == 0 && y.key.dispatch == 0 && !x.key.action.ConfirmSuccess?
      && !y.key.action.ConfirmSuccess?
    ensures Leads(INITIAL, Looked(x, y), BothAt(x, y, LookedUp), 0, limit, g)
  {
    OpeningRuns(limit, g);
    Submitted(x, y, limit, g);
    BothMove(x, y, Fresh, LookedUp, limit, g);
    Joined(INITIAL, Opening(), World([UNSURE], [], [], [], []), 0, [Submit(x), Submit(y)], BothAt(x, y, Fresh), 0,
      limit, g);
    Joined(INITIAL, Opening() + [Submit(x), Submit(y)], BothAt(x, y, Fresh), 0, [FIRST, SECOND], BothAt(x, y, LookedUp),
      0, limit, g);
  }

  const READY := Checked(Some("timeout"), None)

  function Raced(x: Request, y: Request): seq<Action> {
    Looked(x, y) + [FIRST, SECOND] + [FIRST]
  }

  function FirstDecided(x: Request, y: Request): World {
    World([Queue.Decided(UNSURE, x.key.action)], [AuditOf(x, Some("timeout"), None)],
          [Process(x, Done(Resolved(0, Queue.AfterStatus(x.key.action), false))), Process(y, READY)], [0], [Clean])
  }

  /** Both requests have checked the dispatch when the first one decides it. */
  lemma RacedRuns(x: Request, y: Request, limit: nat, g: Guards)
    requires x.key.dispatch == 0 && y.key.dispatch == 0 && !x.key.action.ConfirmSuccess?
      && !y.key.action.ConfirmSuccess?
    requires AuditChecks(AuditOf(x, Some("timeout"), None))
    ensures Leads(INITIAL, Raced(x, y), FirstDecided(x, y), 1, limit, g)
  {
    LookedRuns(x, y, limit, g);
    BothMove(x, y, LookedUp, READY, limit, g);
    var w := BothAt(x, y, READY);
    Joined(INITIAL, Looked(x, y), BothAt(x, y, LookedUp), 0, [FIRST, SECOND], w, 0, limit, g);
    assert FirstDecided(x, y) == StepWith(w, FIRST, limit, g);
    One(w, FIRST, FirstDecided(x, y), limit, g);
    Joined(INITIAL, Looked(x, y) + [FIRST, SECOND], w, 0, [FIRST], FirstDecided(x, y), 1, limit, g);
  }

  // ----- An early twin -----

  const BURY := Request(Key(0, Queue.MarkDead, "ticket-1"), "operator", "reason")

  /** Two identical requests look before either decides: one succeeds, and its twin is told of a conflict. */
  lemma EarlyTwinCanConflict(limit: nat) returns (acts: seq<Action>)
    ensures acts == Looked(BURY, BURY) + [FIRST, FIRST] + [SECOND]
    ensures var w := Run(INITIAL, acts, limit);
      && |w.processes| == 2 && w.processes[0].request == w.processes[1].request
      && w.processes[0].phase == Done(Resolved(0, Queue.Dead, false)) && w.processes[1].phase == Done(StateConflict)
  {
    acts := Looked(BURY, BURY) + [FIRST, FIRST] + [SECOND];
    LookedRuns(BURY, BURY, limit, BOTH);
    var w := BothAt(BURY, BURY, LookedUp);
    var w1 := StepWith(w, FIRST, limit, BOTH);
    assert w1.processes == [Process(BURY, READY), Process(BURY, LookedUp)];
    assert !Blank("operator") && !Blank("ticket-1") && !Blank("reason") by {
      assert "operator"[0] == 'o' && "ticket-1"[0] == 't' && "reason"[0] == 'r';
    }
    var w2 := StepWith(w1, FIRST, limit, BOTH);
    assert w2.processes == [Process(BURY, Done(Resolved(0, Queue.Dead, false))), Process(BURY, LookedUp)];
    Two(w, FIRST, w1, FIRST, w2, limit, BOTH);
    var w3 := StepWith(w2, SECOND, limit, BOTH);
    One(w2, SECOND, w3, limit, BOTH);
    var m, n := Exit(w, w1) + Exit(w1, w2), Exit(w2, w3);
    Joined(INITIAL, Looked(BURY, BURY), w, 0, [FIRST, FIRST], w2, m, limit, BOTH);
    Joined(INITIAL, Looked(BURY, BURY) + [FIRST, FIRST], w2, m, [SECOND], w3, n, limit, BOTH);
  }

  // ----- Nobody is told -----

  const LOST := Proceed(0, NOTHING, LandedButRaised)

  function Unreported(): World {
    World([Queue.Decided(UNSURE, Queue.MarkDead)], [AuditOf(BURY, Some("timeout"), None)],
          [Process(BURY, Done(CommitFailed)), Process(BURY, LookedUp)], [0], [LandedButRaised])
  }

  lemma DecisionLandsUnreported(limit: nat)
    ensures Leads(BothAt(BURY, BURY, LookedUp), [FIRST, LOST], Unreported(), 1, limit, BOTH)
  {
    var w := BothAt(BURY, BURY, LookedUp);
    RequestsAreSound();
    var w1 := w.(processes := [Process(BURY, READY), Process(BURY, LookedUp)]);
    assert w1 == StepWith(w, FIRST, limit, BOTH);
    assert Admissible(w1, 0, BOTH);
    assert Unreported() == StepWith(w1, LOST, limit, BOTH);
    Two(w, FIRST, w1, LOST, Unreported(), limit, BOTH);
  }

  const AGAIN := [Submit(BURY), Proceed(2, NOTHING, Clean)]

  /** A decision lands and its commit raises: a later identical request is told that the decision was there already. */
  lemma NobodyReportsCreation(limit: nat) returns (acts: seq<Action>)
    ensures acts == Looked(BURY, BURY) + [FIRST, LOST] + AGAIN
    ensures var w := Run(INITIAL, acts, limit);
      && |w.audits| == 1 && w.reports == [LandedButRaised]
      && |w.processes| == 3 && w.processes[0].phase == Done(CommitFailed)
      && w.processes[2].phase == Done(Resolved(0, Queue.Dead, true))
      && forall k: nat :: !CreatedBy(w, 0, k)
  {
    acts := Looked(BURY, BURY) + [FIRST, LOST] + AGAIN;
    LookedRuns(BURY, BURY, limit, BOTH);
    DecisionLandsUnreported(limit);
    var w := Unreported();
    Joined(INITIAL, Looked(BURY, BURY), BothAt(BURY, BURY, LookedUp), 0, [FIRST, LOST], w, 1, limit, BOTH);
    var w1 := StepWith(w, AGAIN[0], limit, BOTH);
    var w2 := StepWith(w1, AGAIN[1], limit, BOTH);
    Two(w, AGAIN[0], w1, AGAIN[1], w2, limit, BOTH);
    var n := Exit(w, w1) + Exit(w1, w2);
    Joined(INITIAL, Looked(BURY, BURY) + [FIRST, LOST], w, 1, AGAIN, w2, n, limit, BOTH);
  }

  // ----- The status guard -----

  const BURY_AGAIN := Request(Key(0, Queue.MarkDead, "ticket-2"), "operator", "reason")

  lemma RequestsAreSound()
    ensures AuditChecks(AuditOf(BURY, Some("timeout"), None)) && AuditChecks(AuditOf(BURY_AGAIN, Some("timeout"), None))
    ensures AuditChecks(AuditOf(REPEAT, Some("timeout"), None))
  {
    assert "operator"[0] == 'o' && "ticket-1"[0] == 't' && "ticket-2"[0] == 't' && "reason"[0] == 'r';
  }

  /** Without it two decisions of one uncertain dispatch are both recorded, though the dispatch was uncertain once. */
  lemma WithoutStatusGuard(limit: nat, g: Guards) returns (acts: seq<Action>)
    requires !g.status
    ensures acts == Raced(BURY, BURY_AGAIN) + [SECOND]
    ensures CountExits(INITIAL, acts, limit, g, 0) == 1 && CountAudits(RunWith(INITIAL, acts, limit, g).audits, 0) == 2
  {
    acts := Raced(BURY, BURY_AGAIN) + [SECOND];
    RequestsAreSound();
    RacedRuns(BURY, BURY_AGAIN, limit, g);
    var w := FirstDecided(BURY, BURY_AGAIN);
    assert "ticket-1"[7] != "ticket-2"[7];
    var w' := StepWith(w, SECOND, limit, g);
    One(w, SECOND, w', limit, g);
    Joined(INITIAL, Raced(BURY, BURY_AGAIN), w, 1, [SECOND], w', 0, limit, g);
    assert w'.audits == [AuditOf(BURY, Some("timeout"), None), AuditOf(BURY_AGAIN, Some("timeout"), None)];
    assert w'.audits[..1] == [AuditOf(BURY, Some("timeout"), None)] && w'.audits[..1][..0] == [];
  }

  /** Every run from empty tables has one audit row per exit, exactly because decisions ask for the uncertain status. */
  lemma CountLawNeedsStatusGuard(limit: nat, g: Guards)
    ensures (forall acts: seq<Action>, d: nat ::
               CountAudits(RunWith(INITIAL, acts, limit, g).audits, d)
                 == CountExits(INITIAL, acts, limit, g, d)) <==> g.status
  {
    if g.status {
      forall acts: seq<Action>, d: nat
        ensures CountAudits(RunWith(INITIAL, acts, limit, g).audits, d) == CountExits(INITIAL, acts, limit, g, d)
      {
        ExitsEqualAudits(INITIAL, acts, limit, g, d);
      }
    } else {
      var acts := WithoutStatusGuard(limit, g);
    }
  }

  // ----- The unique key -----

  const REPEAT := Request(Key(0, Queue.RetryApproved, "ticket-1"), "operator", "reason")

  /**
   Without it one reference approves two retries: the dispatch runs again and becomes uncertain before the twin decides.
   */
  lemma WithoutKeyGuard(limit: nat, g: Guards) returns (acts: seq<Action>)
    requires !g.key
    ensures acts == Raced(REPEAT, REPEAT) + [CLAIM, GIVE_UP] + [SECOND]
    ensures CountExits(INITIAL, acts, limit, g, 0) == 2 && !UniqueKeys(RunWith(INITIAL, acts, limit, g).audits)
  {
    acts := Raced(REPEAT, REPEAT) + [CLAIM, GIVE_UP] + [SECOND];
    RequestsAreSound();
    RacedRuns(REPEAT, REPEAT, limit, g);
    var w := FirstDecided(REPEAT, REPEAT);
    BecomesUncertain(w, limit, g);
    var w1 := w.(table := [UNSURE.(attempts := 2)]);
    Joined(INITIAL, Raced(REPEAT, REPEAT), w, 1, [CLAIM, GIVE_UP], w1, 0, limit, g);
    var w2 := StepWith(w1, SECOND, limit, g);
    One(w1, SECOND, w2, limit, g);
    Joined(INITIAL, Raced(REPEAT, REPEAT) + [CLAIM, GIVE_UP], w1, 1, [SECOND], w2, 1, limit, g);
    assert w2.audits[0].key == w2.audits[1].key;
  }

  /** No two audit rows of any run share a key, exactly because the table refuses them. */
  lemma UniqueKeysNeedKeyGuard(limit: nat, g: Guards)
    ensures (forall acts: seq<Action> :: UniqueKeys(RunWith(INITIAL, acts, limit, g).audits)) <==> g.key
  {
    if g.key {
      forall acts: seq<Action> ensures UniqueKeys(RunWith(INITIAL, acts, limit, g).audits) {
        KeyGuardKeeps(INITIAL, acts, limit, g);
      }
    } else {
      var acts := WithoutKeyGuard(limit, g);
    }
  }

  lemma {:induction false} KeyGuardKeeps(w: World, acts: seq<Action>, limit: nat, g: Guards)
    requires g.key && UniqueKeys(w.audits)
    ensures UniqueKeys(RunWith(w, acts, limit, g).audits)
    decreases |acts|
  {
    if acts != [] { KeyGuardKeeps(StepWith(w, acts[0], limit, g), acts[1..], limit, g); }
  }
}
