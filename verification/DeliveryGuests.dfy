/**
 The other way in which an insert hands out an attempt: its number is taken, and it takes up the attempt it finds in
 flight. Without the claim that attempt is another worker's. This is safe in one case only: that worker has given the
 attempt up without having sent it, and will put it into quarantine.
 */
module DeliveryGuests {
  import opened Basics
  import opened DeliveryOutbox
  import opened DeliveryInvariant
  import opened ChannelSend
  import opened DeliveryProtocol
  import opened DeliverySafety
  import opened DeliveryTheorems

  predicate GaveUp(x: Phase, a: nat) {
    x.Busy? && x.attempt == a && x.stage.Failing? && Classify(x.stage.error) == FailureKind.Uncertain
  }

  /** Whoever carries this attempt, apart from worker `k`, is about to put it into quarantine. */
  ghost predicate Abandoned(w: World, k: nat, a: nat) {
    forall j: nat :: j in w.workers && j != k && w.workers[j].Busy? && w.workers[j].attempt == a ==>
      GaveUp(w.workers[j], a)
  }

  /** Worker `k` carries an attempt that it has no claim for; without it everything is as it should be. */
  ghost predicate Guest(w: World, k: nat, a: nat, m: nat) {
    k in w.workers && Sound(Leave(w, k), m) && Abandoned(w, k, a) && GuestPhase(w, k, a)
  }

  ghost predicate GuestPhase(w: World, k: nat, a: nat) {
    && k in w.workers
    && var x := w.workers[k];
    && x.Busy? && x.attempt == a && Ended(w, x.token) && x.delivery < |w.db.deliveries|
    && (forall j: nat :: j in w.workers && j != k ==> w.workers[j].token != x.token)
    && a < |w.db.attempts| && w.db.attempts[a].delivery == x.delivery && w.db.attempts[a].part == x.part
       && Open(w.db, a)
    && x.part <= w.db.deliveries[x.delivery].nextPart
    && (x.stage.Sending? ==> !Posted(w, a))
  }

  // ----- Steps of others -----

  lemma OthersCommute(w: World, act: Action, k: nat, m: nat)
    requires k in w.workers && (act.DoClaim? || !OnTables(act) ==> act.worker != k)
    ensures Leave(Step(w, act, m), k) == Step(Leave(w, k), act, m)
    ensures k in Step(w, act, m).workers && Step(w, act, m).workers[k] == w.workers[k]
    ensures FencedStep(w, act) ==> FencedStep(Leave(w, k), act)
  {
    if OnTables(act) { SessionsCommute(w, act, k, m); } else { WorkersCommute(w, act, k, m); }
  }

  lemma SessionsCommute(w: World, act: Action, k: nat, m: nat)
    requires k in w.workers && OnTables(act) && (act.DoClaim? ==> act.worker != k)
    ensures Leave(Step(w, act, m), k) == Step(Leave(w, k), act, m)
    ensures k in Step(w, act, m).workers && Step(w, act, m).workers[k] == w.workers[k]
    ensures FencedStep(w, act) ==> FencedStep(Leave(w, k), act)
  {
    if act.DoClaim? {
      assert Leave(Step(w, act, m), k).workers == Step(Leave(w, k), act, m).workers;
    }
  }

  lemma WorkersCommute(w: World, act: Action, k: nat, m: nat)
    requires k in w.workers && !OnTables(act) && act.worker != k
    ensures Leave(Step(w, act, m), k) == Step(Leave(w, k), act, m)
    ensures k in Step(w, act, m).workers && Step(w, act, m).workers[k] == w.workers[k]
    ensures FencedStep(w, act) ==> FencedStep(Leave(w, k), act)
  {
    OthersGoOn(w, act, m, k);
    SameTablesWithout(w, act, k, m);
    var v, v' := Leave(Step(w, act, m), k), Step(Leave(w, k), act, m);
    assert v.workers == v'.workers by { SameWorkersWithout(w, act, k, m); }
  }

  lemma SameTablesWithout(w: World, act: Action, k: nat, m: nat)
    requires k in w.workers && !OnTables(act) && act.worker != k
    ensures var v, v' := Step(w, act, m), Step(Leave(w, k), act, m);
      v.db == v'.db && v.looks == v'.looks && v.used == v'.used && v.posts == v'.posts && v.retries == v'.retries
  {
    if act.DoMark? {
      MarkWithout(w, act, k, m);
    } else if act.DoRecordFailure? {
      FailureWithout(w, act, k, m);
    } else {
      SenderWithout(w, act, k, m);
    }
  }

  ghost predicate Alike(w: World, w': World, k: nat) {
    && w.db == w'.db && w.looks == w'.looks && w.used == w'.used && w.posts == w'.posts && w.retries == w'.retries
    && (k in w.workers <==> k in w'.workers) && (k in w.workers ==> w.workers[k] == w'.workers[k])
  }

  lemma MarkWithout(w: World, act: Action, k: nat, m: nat)
    requires act.DoMark? && act.worker != k
    ensures Alike(Step(w, act, m), Step(Leave(w, k), act, m), act.worker)
  {
    var l := act.worker;
    if l in w.workers && w.workers[l].Busy? && w.workers[l].stage.Accepted? {
      var x := w.workers[l];
      var t := MarkPartDelivered(w.db, x.delivery, x.token, x.attempt, x.part, act.payload, act.at);
      assert t == MarkPartDelivered(Leave(w, k).db, x.delivery, x.token, x.attempt, x.part, act.payload, act.at);
    }
  }

  lemma FailureWithout(w: World, act: Action, k: nat, m: nat)
    requires act.DoRecordFailure? && act.worker != k
    ensures Alike(Step(w, act, m), Step(Leave(w, k), act, m), act.worker)
  {
  }

  lemma SenderWithout(w: World, act: Action, k: nat, m: nat)
    requires !OnTables(act) && !act.DoMark? && !act.DoRecordFailure? && act.worker != k
    ensures Alike(Step(w, act, m), Step(Leave(w, k), act, m), act.worker)
  {
    if act.DoStart? || act.DoInsert? { StarterWithout(w, act, k, m); } else { PosterWithout(w, act, k, m); }
  }

  lemma StarterWithout(w: World, act: Action, k: nat, m: nat)
    requires (act.DoStart? || act.DoInsert?) && act.worker != k
    ensures Alike(Step(w, act, m), Step(Leave(w, k), act, m), act.worker)
  {
  }

  lemma PosterWithout(w: World, act: Action, k: nat, m: nat)
    requires (act.DoPreSendFailure? || act.DoSend? || act.DoResolve?) && act.worker != k
    ensures Alike(Step(w, act, m), Step(Leave(w, k), act, m), act.worker)
  {
  }

  lemma SameWorkersWithout(w: World, act: Action, k: nat, m: nat)
    requires k in w.workers && !OnTables(act) && act.worker != k
    ensures Leave(Step(w, act, m), k).workers == Step(Leave(w, k), act, m).workers
  {
    var v, v' := Leave(Step(w, act, m), k), Step(Leave(w, k), act, m);
    forall l: nat ensures (l in v.workers <==> l in v'.workers) && (l in v.workers ==> v.workers[l] == v'.workers[l]) {
      if l != act.worker {
        OthersGoOn(w, act, m, l);
        OthersGoOn(Leave(w, k), act, m, l);
      } else {
        OwnStepWithout(w, act, k, m);
      }
    }
  }

  lemma OwnStepWithout(w: World, act: Action, k: nat, m: nat)
    requires k in w.workers && !OnTables(act) && act.worker != k
    ensures var v, v' := Step(w, act, m).workers, Step(Leave(w, k), act, m).workers;
      (act.worker in v <==> act.worker in v') && (act.worker in v ==> v[act.worker] == v'[act.worker])
  {
    if act.DoMark? {
      MarkWithout(w, act, k, m);
    } else if act.DoRecordFailure? {
      FailureWithout(w, act, k, m);
    } else {
      SenderWithout(w, act, k, m);
    }
  }

  /** An abandoned attempt can only go into quarantine, and nobody else takes it up. */
  lemma StaysAbandoned(w: World, act: Action, m: nat, k: nat, a: nat, w': World)
    requires Inv(w, m) && k !in w.workers && Abandoned(w, k, a) && a < |w.db.attempts| && Open(w.db, a)
    requires FencedStep(w, act) && w' == Step(w, act, m) && (act.DoClaim? || !OnTables(act) ==> act.worker != k)
    ensures a < |w'.db.attempts| && Open(w'.db, a) && Abandoned(w', k, a) && (Posted(w', a) ==> Posted(w, a))
  {
    if OnTables(act) {
      SessionsLeaveIt(w, act, m, k, a, w');
    } else if act.worker in w.workers {
      assert PhaseOk(w, w.workers[act.worker]);
      OthersGoOnAbandoned(w, act, m, k, a, w');
      if w.workers[act.worker].Busy? { CarriersLeaveIt(w, act, m, a, w'); } else { StartersLeaveIt(w, act, m, a, w'); }
    }
  }

  lemma SessionsLeaveIt(w: World, act: Action, m: nat, k: nat, a: nat, w': World)
    requires Abandoned(w, k, a) && a < |w.db.attempts| && Open(w.db, a) && OnTables(act) && w' == Step(w, act, m)
    ensures a < |w'.db.attempts| && Open(w'.db, a) && Abandoned(w', k, a) && w'.posts == w.posts
  {
  }

  lemma OthersGoOnAbandoned(w: World, act: Action, m: nat, k: nat, a: nat, w': World)
    requires Abandoned(w, k, a) && !OnTables(act) && act.worker != k && w' == Step(w, act, m)
    ensures act.worker in w'.workers && w'.workers[act.worker].Busy? && w'.workers[act.worker].attempt == a ==>
      (GaveUp(w'.workers[act.worker], a) ==> Abandoned(w', k, a))
    ensures !(act.worker in w'.workers && w'.workers[act.worker].Busy? && w'.workers[act.worker].attempt == a) ==>
      Abandoned(w', k, a)
  {
    forall l: nat | l != act.worker
      ensures (l in w'.workers <==> l in w.workers) && (l in w.workers ==> w'.workers[l] == w.workers[l])
    {
      OthersGoOn(w, act, m, l);
    }
  }

  /** A worker that has an attempt already: its own, or this one, which it gave up. */
  lemma CarriersLeaveIt(w: World, act: Action, m: nat, a: nat, w': World)
    requires !OnTables(act) && act.worker in w.workers && w.workers[act.worker].Busy? && a < |w.db.attempts|
      && Open(w.db, a)
    requires w.workers[act.worker].attempt == a ==> GaveUp(w.workers[act.worker], a)
    requires w' == Step(w, act, m)
    ensures a < |w'.db.attempts| && Open(w'.db, a) && (Posted(w', a) ==> Posted(w, a))
    ensures act.worker in w'.workers && w'.workers[act.worker].Busy? && w'.workers[act.worker].attempt == a ==>
      GaveUp(w'.workers[act.worker], a)
  {
    CarrierKeepsOpen(w, act, m, a);
    CarrierKeepsPosts(w, act, m, a);
    CarrierKeepsAttempt(w, act, m);
  }

  lemma CarrierKeepsOpen(w: World, act: Action, m: nat, a: nat)
    requires !OnTables(act) && act.worker in w.workers && w.workers[act.worker].Busy? && a < |w.db.attempts|
      && Open(w.db, a)
    requires w.workers[act.worker].attempt == a ==> GaveUp(w.workers[act.worker], a)
    ensures a < |Step(w, act, m).db.attempts| && Open(Step(w, act, m).db, a)
  {
    match act
    case DoMark(k, payload, at, report) =>
    case DoRecordFailure(k, code, retryAt, at) =>
    case _ =>
  }

  lemma CarrierKeepsPosts(w: World, act: Action, m: nat, a: nat)
    requires !OnTables(act) && act.worker in w.workers && w.workers[act.worker].Busy?
    requires w.workers[act.worker].attempt == a ==> GaveUp(w.workers[act.worker], a)
    ensures Posted(Step(w, act, m), a) ==> Posted(w, a)
  {
    var w' := Step(w, act, m);
    if w'.posts != w.posts {
      assert w'.posts == w.posts + [w'.posts[|w.posts|]]
        && w'.posts[|w.posts|].attempt == w.workers[act.worker].attempt;
      OtherPosts(w, w', w'.posts[|w.posts|], a);
    }
  }

  lemma CarrierKeepsAttempt(w: World, act: Action, m: nat)
    requires !OnTables(act) && act.worker in w.workers && w.workers[act.worker].Busy?
    ensures var x := w.workers[act.worker];
      var workers := Step(w, act, m).workers;
      act.worker in workers && workers[act.worker].Busy? ==>
        workers[act.worker].attempt == x.attempt && (x.stage.Failing? ==> workers[act.worker] == x)
  {
  }

  /** A worker without an attempt gets a new one, since nothing is in flight while its claim stands. */
  lemma StartersLeaveIt(w: World, act: Action, m: nat, a: nat, w': World)
    requires !OnTables(act) && act.worker in w.workers && !w.workers[act.worker].Busy?
      && PhaseOk(w, w.workers[act.worker])
    requires a < |w.db.attempts| && Open(w.db, a) && FencedStep(w, act) && w' == Step(w, act, m)
    ensures a < |w'.db.attempts| && Open(w'.db, a) && w'.posts == w.posts
    ensures act.worker in w'.workers && w'.workers[act.worker].Busy? ==> w'.workers[act.worker].attempt != a
  {
  }

  // ----- Steps of the guest -----

  /** A message that goes out for an abandoned attempt: it was not sent, and it will not be recorded as failed. */
  lemma GuestPosts(w: World, q: Post, k: nat, m: nat)
    requires Sound(w, m) && k !in w.workers && Abandoned(w, k, q.attempt) && !Posted(w, q.attempt)
    requires q.attempt < |w.db.attempts| && Open(w.db, q.attempt)
    requires w.db.attempts[q.attempt].delivery == q.delivery && w.db.attempts[q.attempt].part == q.part
    ensures Sound(w.(posts := w.posts + [q]), m)
  {
    var w' := w.(posts := w.posts + [q]);
    forall i: nat | i < |w'.posts| ensures PostOk(w', i) { if i < |w.posts| { assert PostOk(w, i); } }
    forall j: nat | j in w'.workers ensures PhaseOk(w', w'.workers[j]) {
      assert PhaseOk(w, w.workers[j]);
      PostSuitsOthers(w, w', q, j);
    }
    forall e: nat, part: nat ensures EffectBudget(w', e, part) && AttemptBudget(w', e, part, m) {
      assert EffectBudget(w, e, part) && AttemptBudget(w, e, part, m);
      assert Retries(w', e, part) == Retries(w, e, part)
        && UncertainRetries(w', e, part) == UncertainRetries(w, e, part);
    }
    assert forall d: nat, token: Token :: Holder(w', d, token) <==> Holder(w, d, token);
  }

  lemma PostSuitsOthers(w: World, w': World, q: Post, j: nat)
    requires w' == w.(posts := w.posts + [q]) && j in w.workers && PhaseOk(w, w.workers[j])
    requires w.workers[j].Busy? && w.workers[j].attempt == q.attempt ==> GaveUp(w.workers[j], q.attempt)
    ensures PhaseOk(w', w.workers[j])
  {
    var x := w.workers[j];
    if x.Busy? && x.attempt != q.attempt { OtherPosts(w, w', q, x.attempt); }
  }

  /** A worker without attempt and without claim disturbs nobody. */
  lemma IdlerJoins(w: World, k: nat, x: Phase, m: nat)
    requires Sound(w, m) && k !in w.workers && x.Looping? && Ended(w, x.token)
    requires x.delivery < |w.db.deliveries| && x.part <= w.db.deliveries[x.delivery].nextPart
    requires forall j: nat :: j in w.workers ==> w.workers[j].token != x.token
    ensures Sound(w.(workers := w.workers[k := x]), m)
  {
    var w' := w.(workers := w.workers[k := x]);
    SameTables(w, w', m);
    forall j: nat | j in w'.workers ensures PhaseOk(w', w'.workers[j]) {
      if j != k { assert PhaseOk(w, w.workers[j]); }
    }
    forall i: nat, j: nat | i in w'.workers && j in w'.workers && i != j ensures Apart(w'.workers[i], w'.workers[j]) {
      if i != k && j != k { assert Apart(w.workers[i], w.workers[j]); }
    }
    MoreAttend(w, w');
  }

  lemma MoreAttend(w: World, w': World)
    requires Attended(w) && w'.db == w.db && forall j: nat :: j in w.workers ==>
      j in w'.workers && w'.workers[j] == w.workers[j]
    ensures Attended(w')
  {
    forall d: nat | d < |w'.db.deliveries| && w'.db.deliveries[d].claimToken.Some?
      ensures Holder(w', d, w'.db.deliveries[d].claimToken.value)
    {
      assert Holder(w, d, w.db.deliveries[d].claimToken.value);
    }
  }

  /** Without a claim the guest writes nothing. */
  lemma GuestWritesNothing(w: World, act: Action, k: nat, a: nat, m: nat)
    requires Guest(w, k, a, m) && !OnTables(act) && act.worker == k
    ensures var w' := Step(w, act, m);
      w'.db == w.db && w'.used == w.used && w'.looks == w.looks && w'.retries == w.retries
    ensures !act.DoSend? ==> Step(w, act, m).posts == w.posts
  {
    var x := w.workers[k];
    assert !Held(w.db, x.delivery, x.token);
  }

  lemma GuestSends(w: World, act: Action, k: nat, a: nat, m: nat, w': World)
    requires Guest(w, k, a, m) && act.DoSend? && act.worker == k && w' == Step(w, act, m)
    ensures Guest(w', k, a, m)
  {
    GuestWritesNothing(w, act, k, a, m);
    var x := w.workers[k];
    if w'.posts == w.posts {
      assert Leave(w', k) == Leave(w, k);
    } else {
      var q := w'.posts[|w.posts|];
      assert w'.posts == w.posts + [q] && q.attempt == a && q.delivery == x.delivery && q.part == x.part;
      assert !Posted(Leave(w, k), a);
      GuestPosts(Leave(w, k), q, k, m);
      assert Leave(w', k) == Leave(w, k).(posts := w.posts + [q]);
    }
  }

  lemma GuestMoves(w: World, act: Action, k: nat, a: nat, m: nat, w': World)
    requires Guest(w, k, a, m) && !OnTables(act) && act.worker == k && !act.DoSend? && w' == Step(w, act, m)
    ensures Guest(w', k, a, m) || Sound(w', m)
  {
    GuestWritesNothing(w, act, k, a, m);
    GuestGoesOn(w, act, k, m, w');
    assert Leave(w', k) == Leave(w, k);
    if k !in w'.workers {
      assert w' == Leave(w, k);
    } else if w'.workers[k].Looping? {
      IdlerJoins(Leave(w, k), k, w'.workers[k], m);
      assert w'.workers == Leave(w, k).workers[k := w'.workers[k]];
    }
  }

  /**
   What becomes of the guest: it leaves, goes back to the loop at the counter, or stays with its attempt and does not
   send.
   */
  lemma GuestGoesOn(w: World, act: Action, k: nat, m: nat, w': World)
    requires !OnTables(act) && act.worker == k && !act.DoSend? && w' == Step(w, act, m) && k in w.workers
      && w.workers[k].Busy?
    requires !Held(w.db, w.workers[k].delivery, w.workers[k].token)
    ensures Leave(w', k).workers == Leave(w, k).workers
    ensures k in w'.workers ==>
      var x, y := w.workers[k], w'.workers[k];
      && y.token == x.token && y.delivery == x.delivery
      && (|| (y.Looping? && x.delivery < |w.db.deliveries| && y.part == w.db.deliveries[x.delivery].nextPart)
          || (y.Busy? && y.attempt == x.attempt && y.part == x.part && (y.stage.Sending? ==> x.stage.Sending?)))
  {
  }

  // ----- Runs -----

  lemma GuestStep(w: World, act: Action, k: nat, a: nat, m: nat)
    requires Guest(w, k, a, m) && 0 < m && FencedStep(w, act)
    ensures Guest(Step(w, act, m), k, a, m) || Sound(Step(w, act, m), m)
  {
    var w' := Step(w, act, m);
    if act.DoClaim? && act.worker == k {
      assert w' == w;
    } else if !OnTables(act) && act.worker == k {
      if act.DoSend? { GuestSends(w, act, k, a, m, w'); } else { GuestMoves(w, act, k, a, m, w'); }
    } else {
      HostStep(w, act, k, a, m, w');
    }
  }

  lemma HostStep(w: World, act: Action, k: nat, a: nat, m: nat, w': World)
    requires Guest(w, k, a, m) && 0 < m && FencedStep(w, act) && w' == Step(w, act, m)
    requires act.DoClaim? || !OnTables(act) ==> act.worker != k
    ensures Guest(w', k, a, m)
  {
    var v' := Leave(w', k);
    OthersCommute(w, act, k, m);
    HostTables(Leave(w, k), act, k, a, m, v');
    SamePosts(w', v', a);
    SamePosts(w, Leave(w, k), a);
    GuestPhaseStays(w, act, k, a, m, w');
    assert Abandoned(w', k, a) by { StillAbandoned(w', k, a); }
  }

  lemma HostTables(v: World, act: Action, k: nat, a: nat, m: nat, v': World)
    requires Sound(v, m) && 0 < m && FencedStep(v, act) && v' == Step(v, act, m)
    requires k !in v.workers && Abandoned(v, k, a) && a < |v.db.attempts| && Open(v.db, a)
    requires act.DoClaim? || !OnTables(act) ==> act.worker != k
    ensures Sound(v', m) && a < |v'.db.attempts| && Open(v'.db, a) && Abandoned(v', k, a)
      && (Posted(v', a) ==> Posted(v, a))
  {
    StepKeeps(v, act, m);
    StaysAbandoned(v, act, m, k, a, v');
  }

  lemma StillAbandoned(w: World, k: nat, a: nat)
    requires Abandoned(Leave(w, k), k, a)
    ensures Abandoned(w, k, a)
  {
    assert forall j: nat :: j in w.workers && j != k ==>
      j in Leave(w, k).workers && Leave(w, k).workers[j] == w.workers[j];
  }

  lemma SamePosts(w: World, w': World, a: nat)
    requires w'.posts == w.posts
    ensures Posted(w, a) <==> Posted(w', a)
  {
  }

  lemma GuestPhaseStays(w: World, act: Action, k: nat, a: nat, m: nat, w': World)
    requires GuestPhase(w, k, a) && w' == Step(w, act, m) && k in w'.workers && w'.workers[k] == w.workers[k]
    requires a < |w'.db.attempts| && Open(w'.db, a) && (Posted(w', a) ==> Posted(w, a))
    ensures GuestPhase(w', k, a)
  {
    var x := w.workers[k];
    EndedStays(w, act, m, x.token);
    StepGrows(w, act, m);
    AttemptsKeepParts(w, act, m, a);
    forall j: nat | j in w'.workers && j != k ensures w'.workers[j].token != x.token {
      TokensStayOff(w, act, m, j, x.token);
    }
  }

  lemma AttemptsKeepParts(w: World, act: Action, m: nat, a: nat)
    requires a < |w.db.attempts|
    ensures a < |Step(w, act, m).db.attempts| && Step(w, act, m).db.attempts[a].part == w.db.attempts[a].part
  {
    match act
    case DoMark(k, payload, at, report) =>
    case DoRecordFailure(k, code, retryAt, at) =>
    case _ =>
  }

  lemma TokensStayOff(w: World, act: Action, m: nat, j: nat, token: Token)
    requires token in w.used && (j in w.workers ==> w.workers[j].token != token) && j in Step(w, act, m).workers
    ensures Step(w, act, m).workers[j].token != token
  {
    if !OnTables(act) && j != act.worker { OthersGoOn(w, act, m, j); }
  }

  lemma {:induction false} GuestRun(w: World, acts: seq<Action>, k: nat, a: nat, m: nat)
    requires Guest(w, k, a, m) && 0 < m && FencedRun(w, acts, m)
    ensures Guest(Run(w, acts, m), k, a, m) || Sound(Run(w, acts, m), m)
    decreases |acts|
  {
    if acts != [] {
      GuestStep(w, acts[0], k, a, m);
      var w1 := Step(w, acts[0], m);
      if Sound(w1, m) { RunKeeps(w1, acts[1..], m); } else { GuestRun(w1, acts[1..], k, a, m); }
    }
  }

  lemma GuestPromises(w: World, k: nat, a: nat, m: nat)
    requires Guest(w, k, a, m)
    ensures Promise(w)
  {
    var v := Leave(w, k);
    InvPromises(v, m);
    forall i: nat | i < |w.posts| ensures PostOk(w, i) { assert PostOk(v, i); }
    forall d: nat, part: nat ensures |NotFailed(w.db, d, part)| <= 1 + |UncertainRetries(w, d, part)| {
      assert UncertainRetries(w, d, part) == UncertainRetries(v, d, part);
    }
  }

  // ----- The condition -----

  /** One more POST for an attempt that was already posted. */
  lemma SecondPost(w: World, k: nat, d: nat, a: nat, m: nat) returns (acts: seq<Action>)
    requires d < |w.db.deliveries| && w.db.deliveries[d].conversationId != "" && ReadyToSend(w, k, d, a) && Posted(w, a)
    ensures FencedRun(w, acts, m) && !Promise(Run(w, acts, m))
  {
    var act := DoSend(k, "text", Some(w.db.deliveries[d].accountId), OK);
    var w1 := Step(w, act, m);
    SendPosts(w, k, d, a);
    var i: nat :| i < |w.posts| && w.posts[i].attempt == a;
    assert w1.posts[i] == w.posts[i] && w1.posts[|w.posts|].attempt == a && !OnePostPerAttempt(w1);
    acts := Before(w, act, [], m);
  }

  /** A POST for an attempt that its own worker is about to record as failed. */
  lemma PostThenFailure(w: World, k: nat, l: nat, d: nat, a: nat, m: nat) returns (acts: seq<Action>)
    requires d < |w.db.deliveries| && w.db.deliveries[d].conversationId != "" && ReadyToSend(w, k, d, a)
    requires k != l && l in w.workers && w.workers[l].Busy? && w.workers[l].stage.Failing?
    requires Classify(w.workers[l].stage.error) != FailureKind.Uncertain
    requires w.workers[l].delivery == d && w.workers[l].attempt == a && Held(w.db, d, w.workers[l].token)
    requires InFlight(w.db, a) && w.db.attempts[a].delivery == d && w.db.attempts[a].part == w.db.deliveries[d].nextPart
    requires RowOk(w.db, d)
    ensures FencedRun(w, acts, m) && !Promise(Run(w, acts, m))
  {
    var a1, a2 := DoSend(k, "text", Some(w.db.deliveries[d].accountId), OK), DoRecordFailure(l, "error", 0, 0);
    var w1 := Step(w, a1, m);
    SendPosts(w, k, d, a);
    assert w1.posts[|w.posts|].effect && w1.workers[l] == w.workers[l];
    var w2 := Step(w1, a2, m);
    assert w2.db.attempts[a].status.Failed? && w2.posts == w1.posts;
    assert !PostOk(w2, |w.posts|);
    var none: seq<Action> := [];
    var rest := Before(w1, a2, none, m);
    acts := Before(w, a1, rest, m);
  }

  lemma HeldWhereItsWorkerIs(w: World, k: nat, d: nat, m: nat)
    requires Sound(w, m) && k in w.workers && Held(w.db, d, w.workers[k].token)
    ensures d == w.workers[k].delivery
  {
    var x := w.workers[k];
    assert Holder(w, d, x.token);
    var j: nat :| j in w.workers && w.workers[j].delivery == d && w.workers[j].token == x.token;
    assert j == k || Apart(w.workers[j], x);
  }

  /** A token that is not held where its worker is, is not held anywhere. */
  lemma LostEverywhere(w: World, k: nat, m: nat)
    requires Sound(w, m) && k in w.workers && !Held(w.db, w.workers[k].delivery, w.workers[k].token)
    ensures Ended(w, w.workers[k].token)
  {
    assert PhaseOk(w, w.workers[k]);
    forall d: nat ensures !Held(w.db, d, w.workers[k].token) {
      if Held(w.db, d, w.workers[k].token) { HeldWhereItsWorkerIs(w, k, d, m); }
    }
  }

  lemma LeavingIsSound(w: World, k: nat, m: nat)
    requires Sound(w, m) && k in w.workers && Ended(w, w.workers[k].token)
    ensures Sound(Leave(w, k), m)
  {
    var w', token := Leave(w, k), w.workers[k].token;
    LeaveKeeps(w, k, m);
    forall d: nat | d < |w'.db.deliveries| && w'.db.deliveries[d].claimToken.Some?
      ensures Holder(w', d, w'.db.deliveries[d].claimToken.value)
    {
      var held := w.db.deliveries[d].claimToken.value;
      assert Holder(w, d, held) && RowOk(w.db, d) && Held(w.db, d, held);
      var j: nat :| j in w.workers && w.workers[j].delivery == d && w.workers[j].token == held;
      assert j != k && w'.workers[j] == w.workers[j];
    }
  }

  /** The attempt in flight was given up by its worker before anything was sent. */
  ghost predicate GivenUpUnsent(w: World, a: nat) {
    !Posted(w, a) && exists l: nat :: l in w.workers && GaveUp(w.workers[l], a)
  }

  lemma OneCarrier(w: World, k: nat, a: nat)
    requires WorkersOk(w) && k in w.workers && exists l: nat :: l in w.workers && GaveUp(w.workers[l], a)
    ensures Abandoned(w, k, a) && forall j: nat :: j in w.workers && j != k ==> w.workers[j].token != w.workers[k].token
  {
    var l: nat :| l in w.workers && GaveUp(w.workers[l], a);
    forall j: nat | j in w.workers && j != k
      ensures w.workers[j].token != w.workers[k].token && (w.workers[j].Busy? && w.workers[j].attempt == a ==> j == l)
    {
      assert Apart(w.workers[j], w.workers[k]) && (j == l || Apart(w.workers[j], w.workers[l]));
    }
  }

  lemma GuestArrives(w: World, k: nat, a: nat, m: nat)
    requires Sound(w, m) && k in w.workers && w.workers[k].Starting?
      && !Held(w.db, w.workers[k].delivery, w.workers[k].token)
    requires ActiveAttempt(w.db, w.workers[k].delivery, w.workers[k].part) == Some(a) && GivenUpUnsent(w, a)
    ensures Guest(TakeUp(w, k, w.workers[k], a), k, a, m)
  {
    var x := w.workers[k];
    var w' := TakeUp(w, k, x, a);
    LostEverywhere(w, k, m);
    LeavingIsSound(w, k, m);
    assert Leave(w', k).workers == Leave(w, k).workers;
    OneCarrier(w, k, a);
    ArrivesInPhase(w, k, a, w');
  }

  lemma ArrivesInPhase(w: World, k: nat, a: nat, w': World)
    requires k in w.workers && w.workers[k].Starting? && PhaseOk(w, w.workers[k]) && Ended(w, w.workers[k].token)
    requires ActiveAttempt(w.db, w.workers[k].delivery, w.workers[k].part) == Some(a) && !Posted(w, a)
    requires forall j: nat :: j in w.workers && j != k ==> w.workers[j].token != w.workers[k].token
    requires w' == TakeUp(w, k, w.workers[k], a)
    ensures GuestPhase(w', k, a)
  {
  }

  /** The worker of the attempt in flight. */
  lemma CarrierOf(w: World, d: nat, part: nat, a: nat, m: nat) returns (l: nat)
    requires Sound(w, m) && ActiveAttempt(w.db, d, part) == Some(a)
    ensures l in w.workers && w.workers[l].Busy? && w.workers[l].attempt == a && w.workers[l].delivery == d
    ensures Held(w.db, d, w.workers[l].token)
  {
    assert InFlightOk(w.db, a) && RowOk(w.db, d);
    var token := w.db.deliveries[d].claimToken.value;
    assert Holder(w, d, token) && Held(w.db, d, token);
    l :| l in w.workers && w.workers[l].delivery == d && w.workers[l].token == token;
    assert PhaseOk(w, w.workers[l]);
    assert InFlight(w.db, a);
    if w.workers[l].Busy? { assert InFlightOk(w.db, w.workers[l].attempt); }
  }

  lemma TakingUpSentTwice(w: World, k: nat, a: nat, m: nat) returns (acts: seq<Action>)
    requires Sound(w, m) && k in w.workers && w.workers[k].Starting?
      && !Held(w.db, w.workers[k].delivery, w.workers[k].token)
    requires ActiveAttempt(w.db, w.workers[k].delivery, w.workers[k].part) == Some(a) && !GivenUpUnsent(w, a)
    ensures var w' := TakeUp(w, k, w.workers[k], a); FencedRun(w', acts, m) && !Promise(Run(w', acts, m))
  {
    var x := w.workers[k];
    var w' := TakeUp(w, k, x, a);
    var l := CarrierOf(w, x.delivery, x.part, a, m);
    var y := w.workers[l];
    assert PhaseOk(w, y) && InFlightOk(w.db, a) && RowOk(w.db, x.delivery);
    assert !GaveUp(y, a) || Posted(w, a);
    if Posted(w, a) {
      assert Posted(w', a);
      acts := SecondPost(w', k, x.delivery, a, m);
    } else if y.stage.Sending? {
      acts := BothSend(w', k, l, x.delivery, a, m);
    } else {
      acts := PostThenFailure(w', k, l, x.delivery, a, m);
    }
  }

  /**
   What an insert hands out is safe for all that can follow exactly when the claim still stands, or when it is an
   attempt that its own worker gave up unsent.
   */
  lemma StartIsSafeIff(w: World, k: nat, m: nat)
    requires Sound(w, m) && 0 < m && k in w.workers && w.workers[k].Starting? && HandsOut(w.db, w.workers[k])
    ensures var x := w.workers[k];
      Safe(Step(w, DoInsert(k), m), m) <==>
        Held(w.db, x.delivery, x.token)
        || (NumberTaken(w.db, x.delivery, x.part, x.number)
              && GivenUpUnsent(w, ActiveAttempt(w.db, x.delivery, x.part).value))
  {
    var x := w.workers[k];
    if !NumberTaken(w.db, x.delivery, x.part, x.number) {
      InsertIsSafeIffHeld(w, k, m);
    } else {
      var a := ActiveAttempt(w.db, x.delivery, x.part).value;
      var w' := TakeUp(w, k, x, a);
      assert w' == Step(w, DoInsert(k), m);
      NotHeldWhileInFlight(w, k, a);
      if GivenUpUnsent(w, a) {
        GuestArrives(w, k, a, m);
        forall acts: seq<Action> | FencedRun(w', acts, m) ensures Promise(Run(w', acts, m)) {
          GuestRun(w', acts, k, a, m);
          var v := Run(w', acts, m);
          if Sound(v, m) { InvPromises(v, m); } else { GuestPromises(v, k, a, m); }
        }
      } else {
        var acts := TakingUpSentTwice(w, k, a, m);
      }
    }
  }

  lemma NotHeldWhileInFlight(w: World, k: nat, a: nat)
    requires WorkersOk(w) && k in w.workers && w.workers[k].Starting?
    requires ActiveAttempt(w.db, w.workers[k].delivery, w.workers[k].part) == Some(a)
    ensures !Held(w.db, w.workers[k].delivery, w.workers[k].token)
  {
    assert PhaseOk(w, w.workers[k]) && InFlight(w.db, a);
  }
}
