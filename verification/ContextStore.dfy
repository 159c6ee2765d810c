/** The loops of ContextSnapshotStore and of the timeline reader, proved against the projection of ContextTimeline. */
module ContextStore {
  import opened Basics
  import opened ContextTimeline
  import Contents = ContextContents
  import Q = DispatchQueue

  const ARTIFACT_BATCH := 500

  /** The payload envelopes of the successful dispatches of a thread at positions lo up to hi. */
  function Payloads(w: World, thread: string, lo: nat, hi: nat): seq<Envelope>
    requires hi <= |w.dispatches|
    decreases hi - lo
  {
    if lo >= hi then []
    else
      var rest := Payloads(w, thread, lo, hi - 1);
      if HasPayload(w, thread, hi - 1) then rest + [w.results[hi - 1].payload.value] else rest
  }

  predicate HasPayload(w: World, thread: string, i: nat)
    requires i < |w.dispatches|
  {
    w.dispatches[i].target.thread == thread && w.dispatches[i].status.Success? && i in w.results
      && w.results[i].payload.Some?
  }

  ghost predicate EnvelopeResolves(artifacts: map<string, string>, e: Envelope) {
    forall k :: 0 <= k < |e.parts| && e.parts[k].ArtifactRef? ==> Resolves(artifacts, e.parts[k].artifact, e.responseId)
  }

  ghost predicate AllResolve(artifacts: map<string, string>, envelopes: seq<Envelope>) {
    forall j :: 0 <= j < |envelopes| ==> EnvelopeResolves(artifacts, envelopes[j])
  }

  /** Every referenced artifact exists and belongs to the only response that refers to it. */
  ghost predicate OwnersMatch(refs: map<string, set<string>>, artifacts: map<string, string>) {
    forall a :: a in refs ==> a in artifacts && refs[a] == {artifacts[a]}
  }

  lemma {:induction false} PayloadsCover(w: World, thread: string, lo: nat, hi: nat)
    requires hi <= |w.dispatches|
    requires forall i: nat :: lo <= i < hi && w.dispatches[i].target.thread == thread ==>
      !Q.Blocking(w.dispatches[i].status)
    ensures AllResolve(w.artifacts, Payloads(w, thread, lo, hi)) <==> SettledBetween(w, thread, lo, hi)
    decreases hi - lo
  {
    if lo < hi {
      PayloadsCover(w, thread, lo, hi - 1);
      var all, rest := Payloads(w, thread, lo, hi), Payloads(w, thread, lo, hi - 1);
      assert SettledBetween(w, thread, lo, hi) <==>
             SettledBetween(w, thread, lo, hi - 1)
               && (w.dispatches[hi - 1].target.thread == thread ==> Settled(w, hi - 1));
      if HasPayload(w, thread, hi - 1) {
        assert all[|rest|] == w.results[hi - 1].payload.value && all[..|rest|] == rest;
        assert forall j :: 0 <= j < |rest| ==> all[j] == rest[j];
        assert Settled(w, hi - 1) <==> EnvelopeResolves(w.artifacts, all[|rest|]);
      }
    }
  }

  /**
   Some part of the first `n` envelopes, or of the first `m` parts of the one after, refers to `a` from response `rid`.
   */
  ghost predicate Refers(envelopes: seq<Envelope>, n: nat, m: nat, a: string, rid: string) {
    exists j: nat, k: nat :: j < |envelopes| && k < |envelopes[j].parts| && (j < n || (j == n && k < m))
      && envelopes[j].parts[k] == ArtifactRef(a) && envelopes[j].responseId == rid
  }

  ghost predicate Collected(refs: map<string, set<string>>, envelopes: seq<Envelope>, n: nat, m: nat) {
    && (forall a :: a in refs ==> refs[a] != {})
    && (forall a, rid :: a in refs && rid in refs[a] ==> Refers(envelopes, n, m, a, rid))
    && (forall j: nat, k: nat ::
          (&& j < |envelopes| && k < |envelopes[j].parts| && (j < n || (j == n && k < m))
           && envelopes[j].parts[k].ArtifactRef?) ==>
            envelopes[j].parts[k].artifact in refs && envelopes[j].responseId in refs[envelopes[j].parts[k].artifact])
  }

  /** Comparing collected owner sets with the artifact table is the same as resolving every reference on its own. */
  lemma OwnersDecide(refs: map<string, set<string>>, envelopes: seq<Envelope>, artifacts: map<string, string>)
    requires Collected(refs, envelopes, |envelopes|, 0)
    ensures OwnersMatch(refs, artifacts) <==> AllResolve(artifacts, envelopes)
  {
    if AllResolve(artifacts, envelopes) {
      forall a | a in refs ensures a in artifacts && refs[a] == {artifacts[a]} {
        forall rid | rid in refs[a] ensures a in artifacts && rid == artifacts[a] {
          assert Refers(envelopes, |envelopes|, 0, a, rid);
          var j: nat, k: nat :| j < |envelopes| && k < |envelopes[j].parts| && envelopes[j].parts[k] == ArtifactRef(a)
            && envelopes[j].responseId == rid;
          assert EnvelopeResolves(artifacts, envelopes[j]);
        }
        var owner :| owner in refs[a];
        assert refs[a] == {artifacts[a]};
      }
    }
    if OwnersMatch(refs, artifacts) {
      forall j | 0 <= j < |envelopes| ensures EnvelopeResolves(artifacts, envelopes[j]) {
        forall k | 0 <= k < |envelopes[j].parts| && envelopes[j].parts[k].ArtifactRef?
          ensures Resolves(artifacts, envelopes[j].parts[k].artifact, envelopes[j].responseId)
        {
          assert envelopes[j].responseId in refs[envelopes[j].parts[k].artifact];
        }
      }
    }
  }

  predicate Unfinished(w: World, thread: string, lo: nat, hi: nat)
    requires hi <= |w.dispatches|
  {
    exists i: nat :: lo <= i < hi && w.dispatches[i].target.thread == thread && Q.Blocking(w.dispatches[i].status)
  }

  lemma UnfinishedIsRefused(w: World, thread: string, lo: nat, hi: nat)
    requires hi <= |w.dispatches| && Unfinished(w, thread, lo, hi)
    ensures !SettledBetween(w, thread, lo, hi)
  {
    var i: nat :| lo <= i < hi && w.dispatches[i].target.thread == thread && Q.Blocking(w.dispatches[i].status);
    assert !Settled(w, i);
  }

  lemma OwnersDecideBoundary(w: World, thread: string, lo: nat, hi: nat, refs: map<string, set<string>>)
    requires hi <= |w.dispatches| && !Unfinished(w, thread, lo, hi)
    requires Collected(refs, Payloads(w, thread, lo, hi), |Payloads(w, thread, lo, hi)|, 0)
    ensures OwnersMatch(refs, w.artifacts) <==> SettledBetween(w, thread, lo, hi)
  {
    OwnersDecide(refs, Payloads(w, thread, lo, hi), w.artifacts);
    PayloadsCover(w, thread, lo, hi);
  }

  /** Positions from which the last `limit` shown turns begin. */
  function RecentStart(w: World, thread: string, limit: nat, n: nat): nat
    requires n <= |w.dispatches|
  {
    if limit == 0 || n == 0 then n
    else if Shows(w, thread, n - 1) then RecentStart(w, thread, limit - 1, n - 1)
    else RecentStart(w, thread, limit, n - 1)
  }

  function CountShown(w: World, thread: string, lo: nat, hi: nat): nat
    decreases hi - lo
  {
    if lo >= hi then 0 else CountShown(w, thread, lo, hi - 1) + (if Shows(w, thread, hi - 1) then 1 else 0)
  }

  /** The recent window holds `limit` whole turns, or all of them when there are fewer. */
  lemma {:induction false} RecentIsASuffix(w: World, thread: string, limit: nat, n: nat)
    requires n <= |w.dispatches|
    ensures var k := RecentStart(w, thread, limit, n);
            && k <= n && CountShown(w, thread, k, n) <= limit
            && (k == 0 || CountShown(w, thread, k, n) == limit)
            && Entries(w, thread, 0, k) + Entries(w, thread, k, n) == Entries(w, thread, 0, n)
  {
    if limit > 0 && n > 0 {
      RecentIsASuffix(w, thread, if Shows(w, thread, n - 1) then limit - 1 else limit, n - 1);
    }
    var k := RecentStart(w, thread, limit, n);
    EntriesSplit(w, thread, 0, k, n);
  }

  class ContextSnapshotStore {
    var dispatches: Q.Table
    var results: map<nat, RawResponse>
    var messages: map<nat, string>
    var artifacts: map<string, string>
    var snapshots: map<string, seq<Snapshot>>

    constructor (w: World)
      ensures State() == w
    {
      dispatches, results, messages, artifacts, snapshots :=
        w.dispatches, w.results, w.messages, w.artifacts, w.snapshots;
    }

    function State(): World
      reads this
    {
      World(dispatches, results, messages, artifacts, snapshots)
    }

    /** Collects, per referenced artifact, the responses that refer to it. */
    method CollectReferences(envelopes: seq<Envelope>) returns (refs: map<string, set<string>>, ordered: seq<string>)
      ensures Collected(refs, envelopes, |envelopes|, 0)
      ensures forall a :: a in ordered <==> a in refs
    {
      refs, ordered := map[], [];
      var i := 0;
      while i < |envelopes|
        invariant 0 <= i <= |envelopes| && Collected(refs, envelopes, i, 0)
        invariant forall a :: a in ordered <==> a in refs
      {
        var e := envelopes[i];
        var k := 0;
        while k < |e.parts|
          invariant 0 <= k <= |e.parts| && Collected(refs, envelopes, i, k)
          invariant forall a :: a in ordered <==> a in refs
        {
          if e.parts[k].ArtifactRef? {
            var a := e.parts[k].artifact;
            ghost var before := refs;
            if a !in refs { ordered := ordered + [a]; }
            refs := refs[a := (if a in refs then refs[a] else {}) + {e.responseId}];
            CollectOne(before, refs, envelopes, i, k);
          } else {
            CollectNone(refs, envelopes, i, k);
          }
          k := k + 1;
        }
        CollectNext(refs, envelopes, i);
        i := i + 1;
      }
    }

    /**
     Looks the artifacts up in batches; accepts when each exists and belongs to the only response that refers to it.
     */
    method CheckOwners(refs: map<string, set<string>>, ordered: seq<string>) returns (ok: bool)
      requires forall a :: a in ordered <==> a in refs
      ensures ok <==> OwnersMatch(refs, artifacts)
    {
      var offset := 0;
      while offset < |ordered|
        invariant 0 <= offset
        invariant forall n :: 0 <= n < offset && n < |ordered| ==>
          ordered[n] in artifacts && refs[ordered[n]] == {artifacts[ordered[n]]}
        decreases |ordered| - offset
      {
        var end := if offset + ARTIFACT_BATCH < |ordered| then offset + ARTIFACT_BATCH else |ordered|;
        var batch := ordered[offset..end];
        var resolved := map a | a in batch && a in artifacts :: artifacts[a];
        for n := 0 to |batch|
          invariant forall m :: 0 <= m < offset + n ==>
            ordered[m] in artifacts && refs[ordered[m]] == {artifacts[ordered[m]]}
        {
          var a := batch[n];
          assert a == ordered[offset + n] && a in ordered;
          if a !in resolved || refs[a] != {resolved[a]} { return false; }
        }
        offset := offset + ARTIFACT_BATCH;
      }
      forall a | a in refs ensures a in artifacts && refs[a] == {artifacts[a]} {
        var n :| 0 <= n < |ordered| && ordered[n] == a;
      }
      return true;
    }

    /** The boundary check of the source, in its own order: end of history, unfinished turns, artifact references. */
    method ValidateBoundary(thread: string, c: nat, validatedFrom: Option<nat>) returns (ok: bool)
      requires 0 < c
      ensures ok <==> Accepts(State(), thread, c, validatedFrom)
    {
      if c > TimelineEnd(State(), thread, |dispatches|) { return false; }
      EndBounded(State(), thread, |dispatches|);
      var lo := if validatedFrom.Some? && 0 < validatedFrom.value then validatedFrom.value - 1 else 0;
      var hi := c - 1;
      var unfinished := Unfinished(State(), thread, lo, hi);
      if unfinished {
        UnfinishedIsRefused(State(), thread, lo, hi);
        return false;
      }
      var envelopes := Payloads(State(), thread, lo, hi);
      var refs, ordered := CollectReferences(envelopes);
      ok := CheckOwners(refs, ordered);
      OwnersDecideBoundary(State(), thread, lo, hi, refs);
    }

    /** Appends the next snapshot version of a thread, or changes nothing. */
    method Create(thread: string, summary: string, c: int) returns (created: bool)
      modifies this`snapshots
      ensures State() == CreateSnapshot(old(State()), thread, summary, c)
      ensures created <==> |History(State(), thread)| == |History(old(State()), thread)| + 1
    {
      if c <= 0 || summary == "" { return false; }
      var h := History(State(), thread);
      var latest := LatestCover(State(), thread);
      if latest.Some? && c < latest.value { return false; }
      var ok := ValidateBoundary(thread, c, latest);
      if !ok { return false; }
      snapshots := snapshots[thread := h + [Snapshot(if h == [] then 1 else h[|h| - 1].version + 1, summary, c)]];
      return true;
    }

    method ReadPart(i: nat, message: nat, e: Envelope, at: Time) returns (entries: seq<Entry>)
      ensures entries == PartEntries(State(), i, message, e, at, 0)
    {
      entries := [];
      for ordinal := 0 to |e.parts|
        invariant entries + PartEntries(State(), i, message, e, at, ordinal)
          == PartEntries(State(), i, message, e, at, 0)
      {
        match e.parts[ordinal] {
          case Text(text) => entries := entries
            + [ResponseEntry(i + 1, message, Some(e.responseId), ordinal, text, at)];
          case ArtifactRef(a) =>
            if Resolves(artifacts, a, e.responseId) {
              entries := entries + [ArtifactEntry(i + 1, message, Some(e.responseId), ordinal, a, at)];
            }
        }
      }
    }

    method ReadTurn(i: nat) returns (entries: seq<Entry>)
      requires i < |dispatches| && Shows(State(), dispatches[i].target.thread, i)
      ensures entries == Turn(State(), dispatches[i].target.thread, i)
      ensures Contents.Holds(State(), dispatches[i].target.thread, i, i + 1, entries)
    {
      Contents.TurnHolds(State(), dispatches[i].target.thread, i);
      var m := dispatches[i].message;
      var r := results[i];
      entries := [MessageEntry(i + 1, m, messages[m])];
      if r.payload.Some? {
        var parts := ReadPart(i, m, r.payload.value, r.createdAt);
        entries := entries + parts;
      } else if r.content != "" {
        entries := entries + [ResponseEntry(i + 1, m, None, 0, r.content, r.createdAt)];
      }
    }

    method ReadBetween(thread: string, lo: nat, hi: nat) returns (entries: seq<Entry>)
      requires hi <= |dispatches|
      ensures entries == Entries(State(), thread, lo, hi) && Contents.Holds(State(), thread, lo, hi, entries)
    {
      Contents.EntriesHold(State(), thread, lo, hi);
      entries := [];
      var i := lo;
      while i < hi
        invariant lo <= i && (i <= hi || i == lo) && entries == Entries(State(), thread, lo, i)
      {
        if Shows(State(), thread, i) {
          var turn := ReadTurn(i);
          entries := entries + turn;
        }
        i := i + 1;
      }
    }

    method Read(thread: string, from: Option<int>, to: Option<int>) returns (r: Timeline)
      ensures r == ReadTimeline(State(), thread, from, to)
    {
      if (from.Some? && from.value <= 0) || (to.Some? && to.value <= 0) { return Invalid; }
      if from.Some? && to.Some? && from.value >= to.value { return Invalid; }
      var lo := if from.Some? then from.value - 1 else 0;
      var hi := if to.Some? then Least(to.value - 1, |dispatches|) else |dispatches|;
      var entries := ReadBetween(thread, lo, hi);
      return ContextTimeline.Timeline.Timeline(entries);
    }

    /** The newest dispatches that show, newest first, at most `limit` of them. */
    method RecentRows(thread: string, limit: nat) returns (rows: seq<nat>)
      ensures forall k :: 0 <= k < |rows| ==> rows[k] < |dispatches| && Shows(State(), thread, rows[k])
      ensures Backwards(State(), thread, rows)
              == Entries(State(), thread, RecentStart(State(), thread, limit, |dispatches|), |dispatches|)
    {
      rows := [];
      var i := |dispatches|;
      while i > 0 && |rows| < limit
        invariant 0 <= i <= |dispatches| && Gathered(State(), thread, limit, rows, i)
      {
        i := i - 1;
        if Shows(State(), thread, i) {
          ShownRow(State(), thread, limit, rows, i);
          rows := rows + [i];
        } else {
          HiddenRow(State(), thread, limit, rows, i);
        }
      }
    }

    /** Reads the most recent whole turns in order: the rows come back newest first and are read in reverse. */
    method ReadRecent(thread: string, limit: nat) returns (entries: seq<Entry>)
      ensures entries == Entries(State(), thread, RecentStart(State(), thread, limit, |dispatches|), |dispatches|)
      ensures var k := RecentStart(State(), thread, limit, |dispatches|);
              Contents.Holds(State(), thread, k, |dispatches|, entries)
    {
      Contents.EntriesHold(State(), thread, RecentStart(State(), thread, limit, |dispatches|), |dispatches|);
      var rows := RecentRows(thread, limit);
      entries := [];
      var n := |rows|;
      assert rows[..n] == rows;
      while n > 0
        invariant 0 <= n <= |rows|
          && entries + Backwards(State(), thread, rows[..n]) == Backwards(State(), thread, rows)
      {
        n := n - 1;
        var turn := ReadTurn(rows[n]);
        OneTurnLess(State(), thread, rows, n, entries);
        entries := entries + turn;
      }
    }
  }

  /** Taking the oldest remaining row from the list puts its turn next. */
  lemma OneTurnLess(w: World, thread: string, rows: seq<nat>, n: nat, entries: seq<Entry>)
    requires n < |rows|
    ensures entries + Backwards(w, thread, rows[..n + 1])
      == (entries + Turn(w, thread, rows[n])) + Backwards(w, thread, rows[..n])
  {
    assert rows[..n + 1] == rows[..n] + [rows[n]];
    BackwardsSnoc(w, thread, rows[..n], rows[n]);
    Associates(entries, Turn(w, thread, rows[n]), Backwards(w, thread, rows[..n]));
  }

  /** What the scan has gathered from dispatch `i` on. */
  ghost predicate Gathered(w: World, thread: string, limit: nat, rows: seq<nat>, i: nat) {
    && i <= |w.dispatches| && |rows| <= limit
    && (forall k :: 0 <= k < |rows| ==> rows[k] < |w.dispatches| && Shows(w, thread, rows[k]))
    && RecentStart(w, thread, limit, |w.dispatches|) == RecentStart(w, thread, limit - |rows|, i)
    && Backwards(w, thread, rows) == Entries(w, thread, i, |w.dispatches|)
  }

  lemma ShownRow(w: World, thread: string, limit: nat, rows: seq<nat>, i: nat)
    requires i < |w.dispatches| && |rows| < limit && Shows(w, thread, i) && Gathered(w, thread, limit, rows, i + 1)
    ensures Gathered(w, thread, limit, rows + [i], i)
  {
    OneMore(w, thread, i, |w.dispatches|);
    BackwardsSnoc(w, thread, rows, i);
  }

  lemma HiddenRow(w: World, thread: string, limit: nat, rows: seq<nat>, i: nat)
    requires i < |w.dispatches| && |rows| < limit && !Shows(w, thread, i) && Gathered(w, thread, limit, rows, i + 1)
    ensures Gathered(w, thread, limit, rows, i)
  {
    OneMore(w, thread, i, |w.dispatches|);
  }

  lemma OneMore(w: World, thread: string, i: nat, hi: nat)
    requires i < hi
    ensures Entries(w, thread, i, hi) == Turn(w, thread, i) + Entries(w, thread, i + 1, hi)
  {
    EntriesSplit(w, thread, i, i + 1, hi);
    assert Entries(w, thread, i, i + 1) == [] + Turn(w, thread, i);
  }

  /** The turns of rows listed newest first, read oldest first. */
  ghost function Backwards(w: World, thread: string, rows: seq<nat>): seq<Entry> {
    if rows == [] then [] else Backwards(w, thread, rows[1..]) + Turn(w, thread, rows[0])
  }

  lemma {:induction false} BackwardsSnoc(w: World, thread: string, rows: seq<nat>, i: nat)
    ensures Backwards(w, thread, rows + [i]) == Turn(w, thread, i) + Backwards(w, thread, rows)
  {
    if rows == [] {
      assert rows + [i] == [i] && [i][1..] == [];
      assert Turn(w, thread, i) + [] == Turn(w, thread, i) == [] + Turn(w, thread, i);
    } else {
      assert (rows + [i])[1..] == rows[1..] + [i];
      BackwardsSnoc(w, thread, rows[1..], i);
      Associates(Turn(w, thread, i), Backwards(w, thread, rows[1..]), Turn(w, thread, rows[0]));
    }
  }

  lemma CollectOne(before: map<string, set<string>>, refs: map<string, set<string>>, envelopes: seq<Envelope>, i: nat,
                   k: nat)
    requires i < |envelopes| && k < |envelopes[i].parts| && envelopes[i].parts[k].ArtifactRef?
      && Collected(before, envelopes, i, k)
    requires var a := envelopes[i].parts[k].artifact;
             refs == before[a := (if a in before then before[a] else {}) + {envelopes[i].responseId}]
    ensures Collected(refs, envelopes, i, k + 1)
  {
    forall a, rid | a in refs && rid in refs[a] ensures Refers(envelopes, i, k + 1, a, rid) {
      if a in before && rid in before[a] {
        assert Refers(envelopes, i, k, a, rid);
      } else {
        assert envelopes[i].parts[k] == ArtifactRef(a) && envelopes[i].responseId == rid;
      }
    }
  }

  lemma CollectNone(refs: map<string, set<string>>, envelopes: seq<Envelope>, i: nat, k: nat)
    requires i < |envelopes| && k < |envelopes[i].parts| && !envelopes[i].parts[k].ArtifactRef?
      && Collected(refs, envelopes, i, k)
    ensures Collected(refs, envelopes, i, k + 1)
  {
    forall a, rid | a in refs && rid in refs[a] ensures Refers(envelopes, i, k + 1, a, rid) {
      assert Refers(envelopes, i, k, a, rid);
    }
  }

  lemma CollectNext(refs: map<string, set<string>>, envelopes: seq<Envelope>, i: nat)
    requires i < |envelopes| && Collected(refs, envelopes, i, |envelopes[i].parts|)
    ensures Collected(refs, envelopes, i + 1, 0)
  {
    forall a, rid | a in refs && rid in refs[a] ensures Refers(envelopes, i + 1, 0, a, rid) {
      assert Refers(envelopes, i, |envelopes[i].parts|, a, rid);
    }
  }
}
