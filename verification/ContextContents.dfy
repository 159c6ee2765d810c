/** What a read of the timeline holds, entry by entry, stated over the tables. */
module ContextContents {
  import opened Basics
  import Q = DispatchQueue
  import opened ContextTimeline

  /** The dispatch with this identifier answered a message of the thread, and both are stored. */
  predicate Answered(w: World, thread: string, id: nat) {
    && 1 <= id <= |w.dispatches|
    && var d := w.dispatches[id - 1];
    d.target.thread == thread && d.status == Q.Success && d.message in w.messages && id - 1 in w.results
  }

  /** The entry is the message of a dispatch, or one part of what was answered to it. */
  predicate Belongs(w: World, thread: string, x: Entry) {
    && Answered(w, thread, x.dispatch)
    && var r := w.results[x.dispatch - 1];
    && x.message == w.dispatches[x.dispatch - 1].message
    && match x
       case MessageEntry(_, m, text) => text == w.messages[m]
       case ResponseEntry(_, _, rid, ordinal, text, at) =>
         && at == r.createdAt
         && (match r.payload
             case None => rid == None && ordinal == 0 && text == r.content && text != ""
             case Some(e) => rid == Some(e.responseId) && ordinal < |e.parts| && e.parts[ordinal] == Text(text))
       case ArtifactEntry(_, _, rid, ordinal, artifact, at) =>
         && at == r.createdAt && r.payload.Some?
         && var e := r.payload.value;
         && rid == Some(e.responseId) && ordinal < |e.parts| && e.parts[ordinal] == ArtifactRef(artifact)
         && artifact in w.artifacts && w.artifacts[artifact] == e.responseId
  }

  /** Where an entry stands within its dispatch: the message first, then the parts by their ordinals. */
  function Place(x: Entry): nat {
    match x
    case MessageEntry(_, _, _) => 0
    case ResponseEntry(_, _, _, ordinal, _, _) => ordinal + 1
    case ArtifactEntry(_, _, _, ordinal, _, _) => ordinal + 1
  }

  predicate Before(x: Entry, y: Entry) {
    x.dispatch < y.dispatch || (x.dispatch == y.dispatch && Place(x) < Place(y))
  }

  predicate InOrder(entries: seq<Entry>) {
    forall i, j :: 0 <= i < j < |entries| ==> Before(entries[i], entries[j])
  }

  /** Exactly the entries that belong to dispatches `lo + 1` to `hi`, in order. */
  ghost predicate Holds(w: World, thread: string, lo: nat, hi: nat, entries: seq<Entry>) {
    && (forall x :: x in entries <==> Belongs(w, thread, x) && lo < x.dispatch <= hi)
    && InOrder(entries)
  }

  lemma Joined(s: seq<Entry>, t: seq<Entry>)
    requires InOrder(s) && InOrder(t) && forall x, y :: x in s && y in t ==> Before(x, y)
    ensures InOrder(s + t)
  {
    forall i, j | 0 <= i < j < |s + t| ensures Before((s + t)[i], (s + t)[j]) {
      if i < |s| <= j { assert s[i] in s && t[j - |s|] in t; }
    }
  }

  /** The parts of one answer, from an ordinal on. */
  lemma {:induction false} PartsHold(w: World, thread: string, i: nat, ordinal: nat)
    requires Answered(w, thread, i + 1) && w.results[i].payload.Some? && ordinal <= |w.results[i].payload.value.parts|
    ensures var r := w.results[i];
      var s := PartEntries(w, i, w.dispatches[i].message, r.payload.value, r.createdAt, ordinal);
      && (forall x :: x in s <==> Belongs(w, thread, x) && x.dispatch == i + 1 && Place(x) > ordinal)
      && InOrder(s)
    decreases |w.results[i].payload.value.parts| - ordinal
  {
    var r := w.results[i];
    var e := r.payload.value;
    if ordinal < |e.parts| {
      PartsHold(w, thread, i, ordinal + 1);
      var m := w.dispatches[i].message;
      var s, rest := PartEntries(w, i, m, e, r.createdAt, ordinal), PartEntries(w, i, m, e, r.createdAt, ordinal + 1);
      PartHolds(w, thread, i, ordinal, s, rest);
    }
  }

  lemma PartHolds(w: World, thread: string, i: nat, ordinal: nat, s: seq<Entry>, rest: seq<Entry>)
    requires Answered(w, thread, i + 1) && w.results[i].payload.Some? && ordinal < |w.results[i].payload.value.parts|
    requires var m, r := w.dispatches[i].message, w.results[i];
      && s == PartEntries(w, i, m, r.payload.value, r.createdAt, ordinal)
      && rest == PartEntries(w, i, m, r.payload.value, r.createdAt, ordinal + 1)
    requires (forall x :: x in rest <==> Belongs(w, thread, x) && x.dispatch == i + 1 && Place(x) > ordinal + 1)
      && InOrder(rest)
    ensures (forall x :: x in s <==> Belongs(w, thread, x) && x.dispatch == i + 1 && Place(x) > ordinal) && InOrder(s)
  {
    var r := w.results[i];
    var e := r.payload.value;
    if s == rest {
      forall x | Belongs(w, thread, x) && x.dispatch == i + 1 ensures Place(x) != ordinal + 1 {}
    } else {
      var first := s[0];
      assert s == [first] + rest && Belongs(w, thread, first) && first.dispatch == i + 1 && Place(first) == ordinal + 1;
      forall x | Belongs(w, thread, x) && x.dispatch == i + 1 && Place(x) == ordinal + 1 ensures x == first {}
      Joined([first], rest);
    }
  }

  lemma TurnHolds(w: World, thread: string, i: nat)
    ensures Holds(w, thread, i, i + 1, Turn(w, thread, i))
  {
    if Answered(w, thread, i + 1) {
      var m, r := w.dispatches[i].message, w.results[i];
      var first, rest := MessageEntry(i + 1, m, w.messages[m]), ResponseEntries(w, i, m, r);
      if r.payload.Some? { PartsHold(w, thread, i, 0); }
      assert Turn(w, thread, i) == [first] + rest;
      forall x | x in rest ensures Before(first, x) {}
      Joined([first], rest);
    }
  }

  lemma {:induction false} EntriesHold(w: World, thread: string, lo: nat, hi: nat)
    ensures Holds(w, thread, lo, hi, Entries(w, thread, lo, hi))
    decreases hi - lo
  {
    if lo < hi {
      EntriesHold(w, thread, lo, hi - 1);
      TurnHolds(w, thread, hi - 1);
      Joined(Entries(w, thread, lo, hi - 1), Turn(w, thread, hi - 1));
    }
  }

  /**
   A read between two dispatch identifiers holds exactly the messages that were answered there and the parts of their
   answers, each once: by dispatch, the message first, then the parts by ordinal. It is refused exactly for bounds that
   are not positive or leave nothing between them.
   */
  lemma TimelineHolds(w: World, thread: string, from: Option<int>, to: Option<int>)
    ensures var t := ReadTimeline(w, thread, from, to);
      && (t.Invalid? <==> (from.Some? && from.value < 1) || (to.Some? && to.value < 1)
                          || (from.Some? && to.Some? && to.value <= from.value))
      && (t.Timeline? ==>
            && (forall x :: x in t.entries <==>
                  && Belongs(w, thread, x)
                  && (from.Some? ==> from.value <= x.dispatch) && (to.Some? ==> x.dispatch < to.value))
            && InOrder(t.entries))
  {
    var t := ReadTimeline(w, thread, from, to);
    if t.Timeline? {
      var n := |w.dispatches|;
      var lo: nat := if from.Some? then from.value - 1 else 0;
      EntriesHold(w, thread, lo, if to.Some? then Least(to.value - 1, n) else n);
    }
  }

  // ----- When a snapshot is taken -----

  /** Nothing of the thread below the boundary is still open. */
  predicate FinishedBelow(w: World, thread: string, c: int) {
    forall i: nat :: i < |w.dispatches| && i + 1 < c && w.dispatches[i].target.thread == thread ==>
      w.dispatches[i].status in {Q.Success, Q.Dead}
  }

  /** Whatever the answers below the boundary refer to is there and was made for them. */
  predicate OwnedBelow(w: World, thread: string, c: int) {
    forall i: nat :: i < |w.dispatches| && i + 1 < c && w.dispatches[i].target.thread == thread ==>
      ReferencesOwned(w, i)
  }

  predicate ReferencesOwned(w: World, i: nat)
    requires i < |w.dispatches|
  {
    w.dispatches[i].status == Q.Success && i in w.results && w.results[i].payload.Some? ==>
      var e := w.results[i].payload.value;
      forall k: nat :: k < |e.parts| && e.parts[k].ArtifactRef? ==>
        e.parts[k].artifact in w.artifacts && w.artifacts[e.parts[k].artifact] == e.responseId
  }

  /** The boundary is at most one past the last dispatch of the thread. */
  predicate WithinHistory(w: World, thread: string, c: int) {
    c <= 1 || exists i: nat :: i < |w.dispatches| && c <= i + 2 && w.dispatches[i].target.thread == thread
  }

  lemma {:induction false} EndIsPastTheLast(w: World, thread: string, n: nat, c: int)
    requires n <= |w.dispatches|
    ensures c <= TimelineEnd(w, thread, n) <==>
      c <= 1 || exists i: nat :: i < n && c <= i + 2 && w.dispatches[i].target.thread == thread
  {
    if n > 0 { EndIsPastTheLast(w, thread, n - 1, c); }
  }

  lemma SettledBelowIff(w: World, thread: string, c: int)
    requires 0 < c
    ensures SettledBetween(w, thread, 0, c - 1) <==> FinishedBelow(w, thread, c) && OwnedBelow(w, thread, c)
  {
    forall i: nat | i < |w.dispatches|
      ensures Settled(w, i) <==> w.dispatches[i].status in {Q.Success, Q.Dead} && ReferencesOwned(w, i)
    {
    }
  }

  /** The conditions under which a snapshot may be taken. */
  predicate MayTake(w: World, thread: string, summary: string, c: int) {
    && summary != "" && 1 <= c && WithinHistory(w, thread, c)
    && (forall k: nat :: k < |History(w, thread)| ==> History(w, thread)[k].coveredUntil <= c)
    && FinishedBelow(w, thread, c) && OwnedBelow(w, thread, c)
  }

  /**
   In every reachable state a snapshot is taken exactly when it has a summary, its boundary is within the history and
   not before the latest one, nothing below is open and all references below are owned; it is then the next version.
   */
  lemma SnapshotTakenIff(acts: seq<Action>, retryLimit: nat, thread: string, summary: string, c: int)
    ensures var w := Run(INITIAL, acts, retryLimit);
      var h := History(w, thread);
      CreateSnapshot(w, thread, summary, c) ==
        if MayTake(w, thread, summary, c)
        then w.(snapshots := w.snapshots[thread := h + [Snapshot(|h| + 1, summary, c)]]) else w
  {
    var w := Run(INITIAL, acts, retryLimit);
    RunKeeps(INITIAL, acts, retryLimit);
    assert SnapshotsOk(w, thread);
    if 0 < c {
      LatestCovers(w, thread, c);
      EndIsPastTheLast(w, thread, |w.dispatches|, c);
      SettledBelowIff(w, thread, c);
      if LatestCover(w, thread).Some? ==> LatestCover(w, thread).value <= c { IncrementalAgreesWithFull(w, thread, c); }
    }
  }

  lemma LatestCovers(w: World, thread: string, c: int)
    requires SnapshotsOk(w, thread)
    ensures (LatestCover(w, thread).Some? ==> LatestCover(w, thread).value <= c) <==>
      forall k: nat :: k < |History(w, thread)| ==> History(w, thread)[k].coveredUntil <= c
    ensures var h := History(w, thread); h != [] ==> h[|h| - 1].version == |h|
  {
    var h := History(w, thread);
    assert forall k: nat :: k < |h| ==> h[k].coveredUntil <= h[|h| - 1].coveredUntil;
  }
}
