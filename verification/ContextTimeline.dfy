/**
 The thread timeline projected from finished dispatches, and snapshots that freeze a prefix of it. The dispatch at
 position i of the table has identifier i + 1, so a boundary c covers the positions below c - 1.
 */
module ContextTimeline {
  import opened Basics
  import Q = DispatchQueue

  datatype Part = Text(text: string) | ArtifactRef(artifact: string)

  datatype Envelope = Envelope(responseId: string, parts: seq<Part>)

  /** The raw Hermes result of a dispatch; older ones carry plain content instead of an envelope. */
  datatype RawResponse = RawResponse(content: string, payload: Option<Envelope>, createdAt: Time)

  datatype Snapshot = Snapshot(version: nat, summary: string, coveredUntil: nat)

  datatype World = World(
    dispatches: Q.Table, results: map<nat, RawResponse>, messages: map<nat, string>,
    artifacts: map<string, string>, snapshots: map<string, seq<Snapshot>>)

  datatype Entry =
    | MessageEntry(dispatch: nat, message: nat, text: string)
    | ResponseEntry(dispatch: nat, message: nat, responseId: Option<string>, ordinal: nat, text: string,
      persistedAt: Time)
    | ArtifactEntry(dispatch: nat, message: nat, responseId: Option<string>, ordinal: nat, artifact: string,
      persistedAt: Time)

  // ----- Projection -----

  predicate Resolves(artifacts: map<string, string>, artifact: string, responseId: string) {
    artifact in artifacts && artifacts[artifact] == responseId
  }

  /** One entry per part from `ordinal` on; a reference that does not resolve to its own response is skipped. */
  function PartEntries(w: World, i: nat, message: nat, e: Envelope, at: Time, ordinal: nat): seq<Entry>
    requires ordinal <= |e.parts|
    decreases |e.parts| - ordinal
  {
    if ordinal == |e.parts| then []
    else
      var rest := PartEntries(w, i, message, e, at, ordinal + 1);
      match e.parts[ordinal]
      case Text(text) => [ResponseEntry(i + 1, message, Some(e.responseId), ordinal, text, at)] + rest
      case ArtifactRef(a) =>
        if Resolves(w.artifacts, a, e.responseId)
          then [ArtifactEntry(i + 1, message, Some(e.responseId), ordinal, a, at)] + rest
        else rest
  }

  function ResponseEntries(w: World, i: nat, message: nat, r: RawResponse): seq<Entry> {
    match r.payload
    case Some(e) => PartEntries(w, i, message, e, r.createdAt, 0)
    case None => if r.content == "" then [] else [ResponseEntry(i + 1, message, None, 0, r.content, r.createdAt)]
  }

  /** The dispatch shows on the timeline: it succeeded, its message exists and its result was stored. */
  predicate Shows(w: World, thread: string, i: nat) {
    && i < |w.dispatches| && w.dispatches[i].target.thread == thread && w.dispatches[i].status.Success?
    && w.dispatches[i].message in w.messages && i in w.results
  }

  function Turn(w: World, thread: string, i: nat): seq<Entry> {
    if !Shows(w, thread, i) then []
    else
      var m := w.dispatches[i].message;
      [MessageEntry(i + 1, m, w.messages[m])] + ResponseEntries(w, i, m, w.results[i])
  }

  /** The entries of the dispatches at positions lo up to hi, in identifier order. */
  function Entries(w: World, thread: string, lo: nat, hi: nat): seq<Entry>
    decreases hi - lo
  {
    if lo >= hi then [] else Entries(w, thread, lo, hi - 1) + Turn(w, thread, hi - 1)
  }

  function Least(x: nat, y: nat): nat {
    if x < y then x else y
  }

  datatype Timeline = Invalid | Timeline(entries: seq<Entry>)

  /** read_timeline: bounds are optional positive dispatch identifiers, the upper one exclusive. */
  function ReadTimeline(w: World, thread: string, from: Option<int>, to: Option<int>): Timeline {
    if (from.Some? && from.value <= 0) || (to.Some? && to.value <= 0) then Invalid
    else if from.Some? && to.Some? && from.value >= to.value then Invalid
    else
      var lo: nat := if from.Some? then from.value - 1 else 0;
      var hi: nat := if to.Some? then Least(to.value - 1, |w.dispatches|) else |w.dispatches|;
      Timeline(Entries(w, thread, lo, hi))
  }

  lemma {:induction false} EntriesSplit(w: World, thread: string, lo: nat, mid: nat, hi: nat)
    requires lo <= mid <= hi
    ensures Entries(w, thread, lo, hi) == Entries(w, thread, lo, mid) + Entries(w, thread, mid, hi)
    decreases hi - mid
  {
    if mid < hi {
      EntriesSplit(w, thread, lo, mid, hi - 1);
      Associates(Entries(w, thread, lo, mid), Entries(w, thread, mid, hi - 1), Turn(w, thread, hi - 1));
    } else {
      assert Entries(w, thread, lo, mid) + [] == Entries(w, thread, lo, mid);
    }
  }

  /** A boundary cuts the timeline in two without losing, repeating or reordering anything. */
  lemma BoundaryPartitionsTimeline(w: World, thread: string, c: int)
    requires 0 < c
    ensures var before, after, all :=
      ReadTimeline(w, thread, None, Some(c)), ReadTimeline(w, thread, Some(c), None),
      ReadTimeline(w, thread, None, None);
            && before.Timeline? && after.Timeline? && all.Timeline?
            && before.entries + after.entries == all.entries
  {
    var n := |w.dispatches|;
    if c - 1 <= n {
      EntriesSplit(w, thread, 0, c - 1, n);
    } else {
      assert Entries(w, thread, 0, n) + [] == Entries(w, thread, 0, n);
    }
  }

  // ----- Boundaries -----

  /** Nothing of this dispatch can still change what it shows: it is finished and its artifacts resolve. */
  predicate Settled(w: World, i: nat)
    requires i < |w.dispatches|
  {
    && !Q.Blocking(w.dispatches[i].status)
    && (w.dispatches[i].status.Success? && i in w.results && w.results[i].payload.Some? ==>
          var e := w.results[i].payload.value;
          forall k :: 0 <= k < |e.parts| && e.parts[k].ArtifactRef? ==>
            Resolves(w.artifacts, e.parts[k].artifact, e.responseId))
  }

  predicate SettledBetween(w: World, thread: string, lo: nat, hi: nat) {
    forall i: nat :: lo <= i < hi && i < |w.dispatches| && w.dispatches[i].target.thread == thread ==> Settled(w, i)
  }

  /** One past the largest dispatch identifier of the thread; 1 when it has none. */
  function TimelineEnd(w: World, thread: string, n: nat): nat
    requires n <= |w.dispatches|
  {
    if n == 0 then 1 else if w.dispatches[n - 1].target.thread == thread then n + 1 else TimelineEnd(w, thread, n - 1)
  }

  /** What _validate_boundary accepts when it looks only at identifiers from `validatedFrom` on. */
  predicate Accepts(w: World, thread: string, c: nat, validatedFrom: Option<nat>) {
    && c <= TimelineEnd(w, thread, |w.dispatches|)
    && (0 < c ==> SettledBetween(w, thread,
          if validatedFrom.Some? && 0 < validatedFrom.value then validatedFrom.value - 1 else 0, c - 1))
  }

  function History(w: World, thread: string): seq<Snapshot> {
    if thread in w.snapshots then w.snapshots[thread] else []
  }

  function LatestCover(w: World, thread: string): Option<nat> {
    var h := History(w, thread);
    if h == [] then None else Some(h[|h| - 1].coveredUntil)
  }

  /** ContextSnapshotStore.create: append the next version when its boundary is valid and not before the latest one. */
  function CreateSnapshot(w: World, thread: string, summary: string, c: int): World {
    if c <= 0 || summary == "" then w
    else if LatestCover(w, thread).Some? && c < LatestCover(w, thread).value then w
    else if !Accepts(w, thread, c, LatestCover(w, thread)) then w
    else
      var h := History(w, thread);
      w.(snapshots := w.snapshots[thread := h + [Snapshot(if h == [] then 1 else h[|h| - 1].version + 1, summary, c)]])
  }

  // ----- Runs -----

  datatype Action =
    | DoMessage(message: nat, text: string)
    | DoQueue(queue: Q.Action)
    | DoComplete(id: nat, token: Token, result: RawResponse, at: Time)
    | DoArtifact(artifact: string, responseId: string)
    | DoSnapshot(thread: string, summary: string, boundary: int)

  /** Dispatch actions respect the message foreign key; a completion stores the result in the same transaction. */
  function Step(w: World, act: Action, retryLimit: nat): World {
    match act
    case DoMessage(m, text) => if m in w.messages then w else w.(messages := w.messages[m := text])
    case DoQueue(q) =>
      if q.DoEnqueue? && q.message !in w.messages then w else w.(dispatches := Q.Step(w.dispatches, q, retryLimit))
    case DoComplete(i, token, result, at) =>
      if !Q.Fenced(w.dispatches, i, token, at) || i in w.results then w
      else w.(dispatches := Q.Complete(w.dispatches, i, token, Q.Succeed, retryLimit, at),
        results := w.results[i := result])
    case DoArtifact(a, rid) => if a in w.artifacts then w else w.(artifacts := w.artifacts[a := rid])
    case DoSnapshot(thread, summary, c) => CreateSnapshot(w, thread, summary, c)
  }

  function Run(w: World, acts: seq<Action>, retryLimit: nat): World
    decreases |acts|
  {
    if acts == [] then w else Run(Step(w, acts[0], retryLimit), acts[1..], retryLimit)
  }

  const INITIAL := World([], map[], map[], map[], map[])

  /**
   Rows only ever get added to or moved forward: finished dispatches, results, messages, artifacts and snapshots stay.
   */
  ghost predicate Extends(w: World, w': World) {
    && Q.Finished(w.dispatches, w'.dispatches)
    && (forall i :: i in w.results ==> i in w'.results && w'.results[i] == w.results[i])
    && (forall i: nat :: i < |w.dispatches| && !Q.Blocking(w.dispatches[i].status) && i in w'.results ==>
          i in w.results)
    && (forall m :: m in w.messages ==> m in w'.messages && w'.messages[m] == w.messages[m])
    && (forall a :: a in w.artifacts ==> a in w'.artifacts && w'.artifacts[a] == w.artifacts[a])
    && (forall thread: string :: History(w, thread) <= History(w', thread))
  }

  lemma StepExtends(w: World, act: Action, retryLimit: nat)
    ensures Extends(w, Step(w, act, retryLimit))
  {
    match act
    case DoMessage(m, text) =>
    case DoQueue(q) => QueueExtends(w, q, retryLimit);
    case DoComplete(i, token, result, at) => CompleteExtends(w, i, token, result, at, retryLimit);
    case DoArtifact(a, rid) =>
    case DoSnapshot(thread, summary, c) => SnapshotExtends(w, thread, summary, c);
  }

  lemma QueueExtends(w: World, q: Q.Action, retryLimit: nat)
    ensures Extends(w, w.(dispatches := Q.Step(w.dispatches, q, retryLimit)))
  {
    Q.StepFinishes(w.dispatches, q, retryLimit);
    var t' := Q.Step(w.dispatches, q, retryLimit);
    assert forall thread: string :: History(w.(dispatches := t'), thread) == History(w, thread);
  }

  lemma CompleteExtends(w: World, i: nat, token: Token, result: RawResponse, at: Time, retryLimit: nat)
    ensures Extends(w, Step(w, DoComplete(i, token, result, at), retryLimit))
  {
    Q.StepFinishes(w.dispatches, Q.DoComplete(i, token, Q.Succeed, at), retryLimit);
    var w' := Step(w, DoComplete(i, token, result, at), retryLimit);
    assert forall thread: string :: History(w', thread) == History(w, thread);
  }

  lemma SnapshotExtends(w: World, thread: string, summary: string, c: int)
    ensures Extends(w, CreateSnapshot(w, thread, summary, c))
  {
    var w' := CreateSnapshot(w, thread, summary, c);
    assert w'.dispatches == w.dispatches && w'.results == w.results && w'.messages == w.messages
      && w'.artifacts == w.artifacts;
    forall other: string ensures History(w, other) <= History(w', other) {}
  }

  lemma {:induction false} RunExtends(w: World, acts: seq<Action>, retryLimit: nat)
    ensures Extends(w, Run(w, acts, retryLimit))
    decreases |acts|
  {
    if acts != [] {
      var v := Step(w, acts[0], retryLimit);
      StepExtends(w, acts[0], retryLimit);
      RunExtends(v, acts[1..], retryLimit);
      ExtendsChains(w, v, Run(w, acts, retryLimit));
    }
  }

  lemma ExtendsChains(u: World, v: World, w: World)
    requires Extends(u, v) && Extends(v, w)
    ensures Extends(u, w)
  {
    forall thread: string ensures History(u, thread) <= History(w, thread) {
      assert History(u, thread) <= History(v, thread) <= History(w, thread);
    }
  }

  // ----- Settled means frozen -----

  lemma SettledStays(w: World, w': World, thread: string, i: nat)
    requires Extends(w, w') && i < |w.dispatches| && Settled(w, i)
    requires w.dispatches[i].message in w.messages
    ensures Settled(w', i) && Turn(w', thread, i) == Turn(w, thread, i)
  {
    assert w'.dispatches[i] == w.dispatches[i];
    if Shows(w, thread, i) && w.results[i].payload.Some? {
      var e := w.results[i].payload.value;
      assert forall k :: 0 <= k < |e.parts| && e.parts[k].ArtifactRef? ==>
        Resolves(w.artifacts, e.parts[k].artifact, e.responseId);
      PartsStay(w, w', i, w.dispatches[i].message, e, w.results[i].createdAt, 0);
    }
  }

  lemma {:induction false} PartsStay(w: World, w': World, i: nat, message: nat, e: Envelope, at: Time, ordinal: nat)
    requires Extends(w, w') && ordinal <= |e.parts|
    requires forall k :: 0 <= k < |e.parts| && e.parts[k].ArtifactRef? ==>
      Resolves(w.artifacts, e.parts[k].artifact, e.responseId)
    ensures PartEntries(w', i, message, e, at, ordinal) == PartEntries(w, i, message, e, at, ordinal)
    decreases |e.parts| - ordinal
  {
    if ordinal < |e.parts| { PartsStay(w, w', i, message, e, at, ordinal + 1); }
  }

  /** Versions count from 1 and boundaries never decrease. */
  ghost predicate Ordered(h: seq<Snapshot>) {
    && (forall k: nat :: k < |h| ==> h[k].version == k + 1 && 0 < h[k].coveredUntil)
    && (forall k: nat, l: nat :: k <= l < |h| ==> h[k].coveredUntil <= h[l].coveredUntil)
  }

  ghost predicate Covers(w: World, thread: string, s: Snapshot) {
    0 < s.coveredUntil <= |w.dispatches| + 1 && SettledBetween(w, thread, 0, s.coveredUntil - 1)
  }

  ghost predicate SnapshotsOk(w: World, thread: string) {
    Ordered(History(w, thread)) && forall k: nat :: k < |History(w, thread)| ==>
      Covers(w, thread, History(w, thread)[k])
  }

  ghost predicate Inv(w: World) {
    && (forall i: nat :: i < |w.dispatches| ==> w.dispatches[i].message in w.messages)
    && (forall thread: string :: SnapshotsOk(w, thread))
  }

  lemma {:induction false} EndBounded(w: World, thread: string, n: nat)
    requires n <= |w.dispatches|
    ensures 1 <= TimelineEnd(w, thread, n) <= n + 1
  {
    if n > 0 { EndBounded(w, thread, n - 1); }
  }

  /** Old boundaries stay good when rows are added: nothing new can sort below them. */
  lemma BetweenStays(w: World, w': World, thread: string, hi: nat)
    requires Inv(w) && Extends(w, w') && SettledBetween(w, thread, 0, hi) && hi <= |w.dispatches|
    ensures SettledBetween(w', thread, 0, hi)
  {
    forall i: nat | i < hi && i < |w'.dispatches| && w'.dispatches[i].target.thread == thread ensures Settled(w', i) {
      SettledStays(w, w', thread, i);
    }
  }

  lemma StepKeeps(w: World, act: Action, retryLimit: nat)
    requires Inv(w)
    ensures Inv(Step(w, act, retryLimit))
  {
    var w' := Step(w, act, retryLimit);
    StepExtends(w, act, retryLimit);
    StepKeepsMessages(w, act, retryLimit);
    forall thread: string ensures SnapshotsOk(w', thread) {
      if act.DoSnapshot? && act.thread == thread {
        CreateKeeps(w, thread, act.summary, act.boundary);
      } else {
        assert History(w', thread) == History(w, thread);
        OthersKeep(w, w', thread);
      }
    }
  }

  lemma StepKeepsMessages(w: World, act: Action, retryLimit: nat)
    requires forall i: nat :: i < |w.dispatches| ==> w.dispatches[i].message in w.messages
    ensures var w' := Step(w, act, retryLimit);
      forall i: nat :: i < |w'.dispatches| ==> w'.dispatches[i].message in w'.messages
  {
    StepExtends(w, act, retryLimit);
    if act.DoQueue? { Q.StepGrows(w.dispatches, act.queue, retryLimit); }
  }

  lemma OthersKeep(w: World, w': World, thread: string)
    requires Inv(w) && Extends(w, w') && History(w', thread) == History(w, thread)
    ensures SnapshotsOk(w', thread)
  {
    assert SnapshotsOk(w, thread);
    var h := History(w, thread);
    forall k: nat | k < |h| ensures SettledBetween(w', thread, 0, h[k].coveredUntil - 1) {
      BetweenStays(w, w', thread, h[k].coveredUntil - 1);
    }
  }

  lemma CreateKeeps(w: World, thread: string, summary: string, c: int)
    requires Inv(w)
    ensures SnapshotsOk(CreateSnapshot(w, thread, summary, c), thread)
  {
    var w' := CreateSnapshot(w, thread, summary, c);
    assert SnapshotsOk(w, thread);
    if w' != w {
      EndBounded(w, thread, |w.dispatches|);
      IncrementalAgreesWithFull(w, thread, c);
      AppendKeeps(w, thread, summary, c, w');
    }
  }

  lemma OrderedAppend(h: seq<Snapshot>, s: Snapshot)
    requires Ordered(h) && s.version == |h| + 1 && 0 < s.coveredUntil
    requires h != [] ==> h[|h| - 1].coveredUntil <= s.coveredUntil
    ensures Ordered(h + [s])
  {
    var h' := h + [s];
    forall k: nat, l: nat | k <= l < |h'| ensures h'[k].coveredUntil <= h'[l].coveredUntil {
      if k < |h| == l { assert h[k].coveredUntil <= h[|h| - 1].coveredUntil; }
    }
  }

  lemma AppendKeeps(w: World, thread: string, summary: string, c: nat, w': World)
    requires SnapshotsOk(w, thread) && w' == CreateSnapshot(w, thread, summary, c) && w' != w
    requires 0 < c <= |w.dispatches| + 1 && SettledBetween(w, thread, 0, c - 1)
    ensures SnapshotsOk(w', thread)
  {
    var h := History(w, thread);
    var s := Snapshot(|h| + 1, summary, c);
    OrderedAppend(h, s);
    assert History(w', thread) == h + [s];
    forall k: nat | k <= |h| ensures Covers(w', thread, (h + [s])[k]) {
      if k < |h| { assert Covers(w, thread, h[k]); } else { assert Covers(w, thread, s); }
      SnapshotSettlesNothing(w, thread, summary, c, (h + [s])[k].coveredUntil - 1);
    }
  }

  lemma SnapshotSettlesNothing(w: World, thread: string, summary: string, c: int, hi: nat)
    ensures SettledBetween(CreateSnapshot(w, thread, summary, c), thread, 0, hi) <==> SettledBetween(w, thread, 0, hi)
  {
    var w' := CreateSnapshot(w, thread, summary, c);
    assert forall i: nat :: i < |w.dispatches| ==> (Settled(w', i) <==> Settled(w, i));
  }

  /**
   Validating only what the latest snapshot does not cover accepts exactly the boundaries a full validation accepts.
   */
  lemma IncrementalAgreesWithFull(w: World, thread: string, c: nat)
    requires Inv(w)
    requires LatestCover(w, thread).Some? ==> LatestCover(w, thread).value <= c
    ensures Accepts(w, thread, c, LatestCover(w, thread)) <==> Accepts(w, thread, c, None)
  {
    assert SnapshotsOk(w, thread);
    var h := History(w, thread);
    if h != [] {
      var latest := h[|h| - 1].coveredUntil;
      assert SettledBetween(w, thread, 0, latest - 1);
    }
  }

  lemma {:induction false} RunKeeps(w: World, acts: seq<Action>, retryLimit: nat)
    requires Inv(w)
    ensures Inv(Run(w, acts, retryLimit))
    decreases |acts|
  {
    if acts != [] {
      StepKeeps(w, acts[0], retryLimit);
      RunKeeps(Step(w, acts[0], retryLimit), acts[1..], retryLimit);
    }
  }

  /**
   In every reachable state the versions of a thread are 1..n, boundaries never decrease, and both validations agree.
   */
  lemma SnapshotsAreOrdered(acts: seq<Action>, retryLimit: nat, thread: string, c: nat)
    ensures var w := Run(INITIAL, acts, retryLimit); var h := History(w, thread);
            && (forall k: nat :: k < |h| ==> h[k].version == k + 1)
            && (forall k: nat, l: nat :: k <= l < |h| ==> h[k].coveredUntil <= h[l].coveredUntil)
            && ((LatestCover(w, thread).Some? ==> LatestCover(w, thread).value <= c) ==>
                  (Accepts(w, thread, c, LatestCover(w, thread)) <==> Accepts(w, thread, c, None)))
  {
    RunKeeps(INITIAL, acts, retryLimit);
    var w := Run(INITIAL, acts, retryLimit);
    assert SnapshotsOk(w, thread);
    if LatestCover(w, thread).Some? ==> LatestCover(w, thread).value <= c {
      IncrementalAgreesWithFull(w, thread, c);
    }
  }

  lemma {:induction false} EntriesStay(w: World, w': World, thread: string, hi: nat)
    requires Inv(w) && Extends(w, w') && hi <= |w.dispatches| && SettledBetween(w, thread, 0, hi)
    ensures Entries(w', thread, 0, hi) == Entries(w, thread, 0, hi)
  {
    if hi > 0 {
      EntriesStay(w, w', thread, hi - 1);
      assert w'.dispatches[hi - 1].target == w.dispatches[hi - 1].target;
      if w.dispatches[hi - 1].target.thread == thread { SettledStays(w, w', thread, hi - 1); }
    }
  }

  lemma FrozenBelow(w: World, w': World, thread: string, k: nat)
    requires Inv(w) && Extends(w, w') && k < |History(w, thread)|
    ensures var c := History(w, thread)[k].coveredUntil;
      && k < |History(w', thread)| && History(w', thread)[k] == History(w, thread)[k]
      && ReadTimeline(w', thread, None, Some(c)) == ReadTimeline(w, thread, None, Some(c))
  {
    assert SnapshotsOk(w, thread) && History(w, thread) <= History(w', thread);
    EntriesStay(w, w', thread, History(w, thread)[k].coveredUntil - 1);
  }

  /** Once a snapshot exists, the timeline below its boundary reads the same in every later state. */
  lemma SnapshotPrefixIsFrozen(past: seq<Action>, future: seq<Action>, retryLimit: nat, thread: string, k: nat)
    requires k < |History(Run(INITIAL, past, retryLimit), thread)|
    ensures var w := Run(INITIAL, past, retryLimit);
            var c := History(w, thread)[k].coveredUntil;
            && k < |History(Run(w, future, retryLimit), thread)|
            && History(Run(w, future, retryLimit), thread)[k] == History(w, thread)[k]
            && ReadTimeline(Run(w, future, retryLimit), thread, None, Some(c)) == ReadTimeline(w, thread, None, Some(c))
  {
    var w := Run(INITIAL, past, retryLimit);
    var w' := Run(w, future, retryLimit);
    RunKeeps(INITIAL, past, retryLimit);
    RunExtends(w, future, retryLimit);
    FrozenBelow(w, w', thread, k);
  }
}
