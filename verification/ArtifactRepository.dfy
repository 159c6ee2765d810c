/**
 Artifacts live in two places that cannot commit together: a database row and a file. ArtifactRepository publishes and
 expires them so that a READY row always has its file, whichever single step fails. `rows` holds committed rows only;
 an open transaction is a local variable until it commits.
 */
module ArtifactRepository {
  import opened Basics

  type Bytes = seq<bv8>

  /** A digest stands for the content it was computed from: SHA-256 is taken to be collision-free. */
  datatype Digest = Sha256(content: Bytes)

  /** Storage keys as the repository builds them; the numbers stand for uuid4 values, which are never drawn twice. */
  datatype Key = Initial(artifact: string) | Published(artifact: string, uuid: nat)

  datatype Path = Stored(key: Key) | Staged(uuid: nat) | Quarantined(uuid: nat)

  datatype Status = Created | Ready | Failed | Expired

  datatype Row = Row(responseId: string, status: Status, size: Option<nat>, sha256: Option<Digest>, key: Key)

  /** One read of the caller's stream. An empty chunk is its end. */
  datatype Chunk = Data(bytes: Bytes) | NotBytes | ReadFails

  datatype Content = Whole(bytes: Bytes) | TooLarge | NotABinaryStream | Unreadable

  /** What staging makes of a stream, given what it has collected so far. */
  function Collect(chunks: seq<Chunk>, sofar: Bytes, limit: nat): Content
    decreases |chunks|
  {
    if chunks == [] then Whole(sofar)
    else match chunks[0]
      case NotBytes => NotABinaryStream
      case ReadFails => Unreadable
      case Data(bytes) =>
        if bytes == [] then Whole(sofar)
        else if |sofar| + |bytes| > limit then TooLarge
        else Collect(chunks[1..], sofar + bytes, limit)
  }

  function Joined(parts: seq<Bytes>): Bytes {
    if parts == [] then [] else parts[0] + Joined(parts[1..])
  }

  function Chunked(parts: seq<Bytes>): seq<Chunk> {
    seq(|parts|, i requires 0 <= i < |parts| => Data(parts[i]))
  }

  /** What the end of a stream makes of the content before it: nothing more comes, or what comes is not content. */
  predicate Ends(tail: seq<Chunk>) {
    tail == [] || !tail[0].Data? || tail[0].bytes == []
  }

  function Ended(tail: seq<Chunk>, content: Bytes): Content {
    if tail != [] && tail[0].NotBytes? then NotABinaryStream
    else if tail != [] && tail[0].ReadFails? then Unreadable
    else Whole(content)
  }

  /**
   How content is cut into chunks does not matter: it is refused as too large exactly when it does not fit, and
   otherwise the end of the stream decides.
   */
  lemma {:induction false} ChunkingIsInvisible(parts: seq<Bytes>, tail: seq<Chunk>, sofar: Bytes, limit: nat)
    requires forall i :: 0 <= i < |parts| ==> parts[i] != []
    requires |sofar| <= limit && Ends(tail)
    ensures Collect(Chunked(parts) + tail, sofar, limit) ==
            if |sofar| + |Joined(parts)| <= limit then Ended(tail, sofar + Joined(parts)) else TooLarge
    decreases |parts|
  {
    if parts == [] {
      assert sofar + [] == sofar && Chunked(parts) + tail == tail;
    } else {
      assert (Chunked(parts) + tail)[0] == Data(parts[0]) && (Chunked(parts) + tail)[1..] == Chunked(parts[1..]) + tail;
      if |sofar| + |parts[0]| <= limit {
        ChunkingIsInvisible(parts[1..], tail, sofar + parts[0], limit);
        assert sofar + parts[0] + Joined(parts[1..]) == sofar + Joined(parts);
      }
    }
  }

  lemma {:induction false} CollectFits(chunks: seq<Chunk>, sofar: Bytes, limit: nat)
    requires |sofar| <= limit
    ensures Collect(chunks, sofar, limit).Whole? ==> |Collect(chunks, sofar, limit).bytes| <= limit
    decreases |chunks|
  {
    if chunks != [] && chunks[0].Data? && chunks[0].bytes != [] && |sofar| + |chunks[0].bytes| <= limit {
      CollectFits(chunks[1..], sofar + chunks[0].bytes, limit);
    }
  }

  /** The one thing that goes wrong in a call, if any. `CommitLanded` raises although the commit took effect. */
  datatype Fault = NoFault | StagingFails | RenameFails | SyncFails | CommitLost | CommitLanded | UnlinkFails

  datatype Outcome =
    | Done
    | NotFound
    | WrongState
    | Rejected
    | StorageError
    | CommitError
    | Killed

  datatype ReadResult = Bytes(content: Bytes) | Refused(why: Outcome)

  /** A READY row is backed: its file holds content of the recorded size and digest. */
  predicate Backed(row: Row, files: map<Path, Bytes>) {
    row.status.Ready? ==>
      && Stored(row.key) in files
      && row.size == Some(|files[Stored(row.key)]|)
      && row.sha256 == Some(Sha256(files[Stored(row.key)]))
  }

  /** Files lie only where drawn numbers put them. */
  predicate Spent(p: Path, uuid: nat) {
    match p
    case Stored(Published(_, n)) => n < uuid
    case Stored(Initial(_)) => false
    case Staged(n) => n < uuid
    case Quarantined(n) => n < uuid
  }

  /**
   A row's key belongs to its own artifact, so no two rows share one; only READY and EXPIRED rows have published keys.
   */
  predicate RowOk(id: string, row: Row, uuid: nat, limit: nat) {
    && row.key.artifact == id
    && (row.key.Published? ==> row.key.uuid < uuid)
    && (row.status.Ready? ==> row.key.Published? && row.size.Some? && row.size.value <= limit)
    && (row.status.Created? || row.status.Failed? ==> row.key == Initial(id))
  }

  ghost predicate Tidy(rows: map<string, Row>, files: map<Path, Bytes>, uuid: nat, limit: nat) {
    && (forall id :: id in rows ==> RowOk(id, rows[id], uuid, limit))
    && (forall p :: p in files ==> Spent(p, uuid))
  }

  /** Every READY artifact has a file at its storage key with the recorded size and digest. */
  ghost predicate AllBacked(rows: map<string, Row>, files: map<Path, Bytes>) {
    forall id :: id in rows ==> Backed(rows[id], files)
  }

  ghost predicate Sound(rows: map<string, Row>, files: map<Path, Bytes>, uuid: nat, limit: nat) {
    Tidy(rows, files, uuid, limit) && AllBacked(rows, files)
  }

  /** Some READY row points at this path. */
  ghost predicate Live(rows: map<string, Row>, p: Path) {
    exists id :: id in rows && rows[id].status.Ready? && Stored(rows[id].key) == p
  }

  lemma DrawKeeps(rows: map<string, Row>, files: map<Path, Bytes>, uuid: nat, limit: nat)
    requires Sound(rows, files, uuid, limit)
    ensures Sound(rows, files, uuid + 1, limit)
  {}

  lemma PutKeeps(rows: map<string, Row>, files: map<Path, Bytes>, uuid: nat, limit: nat, p: Path, bytes: Bytes)
    requires Sound(rows, files, uuid, limit) && Spent(p, uuid) && !Live(rows, p)
    ensures Sound(rows, files[p := bytes], uuid, limit)
  {
    forall id | id in rows ensures Backed(rows[id], files[p := bytes]) { assert Backed(rows[id], files); }
  }

  lemma DropKeeps(rows: map<string, Row>, files: map<Path, Bytes>, uuid: nat, limit: nat, p: Path)
    requires Sound(rows, files, uuid, limit) && !Live(rows, p)
    ensures Sound(rows, files - {p}, uuid, limit)
  {
    forall id | id in rows ensures Backed(rows[id], files - {p}) { assert Backed(rows[id], files); }
  }

  lemma SetRowKeeps(rows: map<string, Row>, files: map<Path, Bytes>, uuid: nat, limit: nat, id: string, row: Row)
    requires Sound(rows, files, uuid, limit) && RowOk(id, row, uuid, limit) && Backed(row, files)
    ensures Sound(rows[id := row], files, uuid, limit)
  {}

  /** Once the row is expired its file may stay or go. */
  lemma ExpiredKeeps(rows: map<string, Row>, files: map<Path, Bytes>, uuid: nat, limit: nat, id: string)
    requires Sound(rows, files, uuid, limit) && id in rows
    ensures var rows' := rows[id := rows[id].(status := Expired)];
            && Sound(rows', files, uuid, limit)
            && Sound(rows', files - {Stored(rows[id].key)}, uuid, limit)
            && !Live(rows', Quarantined(uuid))
  {
    var rows' := rows[id := rows[id].(status := Expired)];
    SetRowKeeps(rows, files, uuid, limit, id, rows[id].(status := Expired));
    OnlyOwnRow(rows', files, uuid, limit, rows[id].key);
    DropKeeps(rows', files, uuid, limit, Stored(rows[id].key));
  }

  /** A key drawn for one artifact can only be live through that artifact's own row. */
  lemma OnlyOwnRow(rows: map<string, Row>, files: map<Path, Bytes>, uuid: nat, limit: nat, key: Key)
    requires Sound(rows, files, uuid, limit)
    requires key.artifact in rows ==> !rows[key.artifact].status.Ready? || rows[key.artifact].key != key
    ensures !Live(rows, Stored(key))
  {}

  /** What whole calls can do to a row: anything while it is CREATED, afterwards only expire it. */
  predicate Evolves(before: Row, after: Row) {
    after == before || before.status.Created? || after == before.(status := Expired)
  }

  /** The artifact is there, waits for content, and the declared size is no reason to refuse it. */
  predicate Attempted(id: string, rows: map<string, Row>, expectedSize: Option<nat>, limit: nat) {
    id in rows && rows[id].status.Created? && (expectedSize.Some? ==> expectedSize.value <= limit)
  }

  /** The content is whole and is what was declared. */
  predicate Declared(content: Content, expectedSize: Option<nat>, expectedSha: Option<Digest>) {
    && content.Whole?
    && (expectedSize.Some? ==> expectedSize.value == |content.bytes|)
    && (expectedSha.Some? ==> expectedSha.value == Sha256(content.bytes))
  }

  lemma NeverLive(rows: map<string, Row>, staged: Path)
    requires staged.Staged?
    ensures !Live(rows, staged)
  {}

  /** How publishing acceptable content ends when no other session interferes. */
  function PublishedOr(fault: Fault): Outcome {
    match fault
    case RenameFails => StorageError
    case SyncFails => StorageError
    case CommitLost => CommitError
    case CommitLanded => CommitError
    case _ => Done
  }

  /** The process dies after the rename of expire and before its commit. */
  predicate KilledOverRename(fault: Fault, killAt: nat) {
    killAt == 1 && !fault.RenameFails? && !fault.SyncFails?
  }

  /** The row has been published since it was read. */
  predicate PublishedSince(read: Row, row: Row) {
    row.status.Ready? && row.key != read.key
  }

  class ArtifactRepository {
    const limit: nat
    var rows: map<string, Row>
    var files: map<Path, Bytes>
    var uuid: nat

    constructor (limit: nat)
      ensures Valid() && rows == map[] && files == map[] && this.limit == limit
    {
      this.limit := limit;
      rows, files, uuid := map[], map[], 0;
    }

    ghost predicate Valid()
      reads this
    {
      Sound(rows, files, uuid, limit)
    }

    /**
     Other sessions complete whole calls of their own. They leave our files and a row we have locked alone, and draw
     other numbers.
     */
    method Others(ghost mine: set<Path>, ghost locked: set<string>, ghost drawnFor: string, ghost drawn: nat)
      requires Valid()
      modifies this`rows, this`files, this`uuid
      ensures Valid() && old(uuid) <= uuid && old(rows).Keys <= rows.Keys
      ensures forall p :: p in mine ==> (p in files <==> p in old(files)) && (p in files ==> files[p] == old(files[p]))
      ensures forall id :: id in locked && id in old(rows) ==> id in rows && rows[id] == old(rows[id])
      ensures forall id :: id in old(rows) ==> Evolves(old(rows)[id], rows[id])
      ensures forall id :: id in rows && rows[id].key == Published(drawnFor, drawn) ==>
        id in old(rows) && old(rows)[id].key == rows[id].key
    {
    }

    /** Inserts the CREATED row; its identifier was just drawn. */
    method Create(id: string, responseId: string)
      requires Valid() && id !in rows
      modifies this`rows
      ensures Valid() && rows == old(rows)[id := Row(responseId, Created, None, None, Initial(id))]
    {
      SetRowKeeps(rows, files, uuid, limit, id, Row(responseId, Created, None, None, Initial(id)));
      rows := rows[id := Row(responseId, Created, None, None, Initial(id))];
    }

    /** Streams the content into a fresh temporary file, or leaves no file at all. */
    method StageContent(chunks: seq<Chunk>, fails: bool) returns (staged: Path, content: Content)
      requires Valid()
      modifies this`files, this`uuid
      ensures Valid() && uuid == old(uuid) + 1 && staged == Staged(old(uuid)) && staged !in old(files)
      ensures content == if fails then Unreadable else Collect(chunks, [], limit)
      ensures files == if content.Whole? then old(files)[staged := content.bytes] else old(files)
    {
      staged := Staged(uuid);
      DrawKeeps(rows, files, uuid, limit);
      uuid := uuid + 1;
      if fails { return staged, Unreadable; }
      content := Stream(chunks, staged);
      if content.Whole? { PutKeeps(rows, old(files), uuid, limit, staged, content.bytes); }
    }

    /** The copy loop: the temporary file always holds what has been read, and is removed when the stream is refused. */
    method Stream(chunks: seq<Chunk>, staged: Path) returns (content: Content)
      requires staged !in files
      modifies this`files
      ensures content == Collect(chunks, [], limit)
      ensures files == if content.Whole? then old(files)[staged := content.bytes] else old(files)
    {
      files := files[staged := []];
      var i, size, copied := 0, 0, [];
      while i < |chunks|
        invariant 0 <= i <= |chunks| && size == |copied|
        invariant files == old(files)[staged := copied]
        invariant Collect(chunks, [], limit) == Collect(chunks[i..], copied, limit)
      {
        assert chunks[i..][1..] == chunks[i + 1..];
        if !chunks[i].Data? {
          files := files - {staged};
          return if chunks[i].NotBytes? then NotABinaryStream else Unreadable;
        }
        var bytes := chunks[i].bytes;
        if bytes == [] { return Whole(copied); }
        size := size + |bytes|;
        if size > limit {
          files := files - {staged};
          return TooLarge;
        }
        copied := copied + bytes;
        files := files[staged := copied];
        i := i + 1;
      }
      return Whole(copied);
    }

    method MarkFailedIfCreated(id: string) returns (changed: bool)
      requires Valid()
      modifies this`rows
      ensures Valid() && changed == (id in old(rows) && old(rows)[id].status.Created?)
      ensures rows == if changed then old(rows)[id := old(rows)[id].(status := Failed)] else old(rows)
    {
      changed := id in rows && rows[id].status.Created?;
      if changed {
        SetRowKeeps(rows, files, uuid, limit, id, rows[id].(status := Failed));
        rows := rows[id := rows[id].(status := Failed)];
      }
    }

    /**
     Publishes content. `killAt` is a step after which the process dies; every READY row stays backed whatever the fault
     or kill point, a successful call leaves exactly the given bytes behind a fresh key, and a failed one leaves no
     staged file and no READY row for its key, unless its commit landed before it raised. A call that is not killed
     publishes acceptable content unless a fault or another session prevents it, and gives the artifact up otherwise.
     */
    method MarkReady(id: string, chunks: seq<Chunk>, expectedSize: Option<nat>, expectedSha: Option<Digest>,
                     fault: Fault, killAt: nat)
      returns (r: Outcome, ghost key: Key)
      requires Valid()
      modifies this`rows, this`files, this`uuid
      ensures Valid()
      ensures key.Published? && key.artifact == id && old(uuid) <= key.uuid
      ensures r.Done? || (r.CommitError? && fault.CommitLanded?) ==>
                && id in rows && rows[id].status.Ready? && rows[id].key == key
                && Collect(chunks, [], limit).Whole?
                && Stored(key) in files && files[Stored(key)] == Collect(chunks, [], limit).bytes
                && (expectedSize.Some? ==> expectedSize.value == |files[Stored(key)]|)
                && (expectedSha.Some? ==> expectedSha.value == Sha256(files[Stored(key)]))
      ensures !r.Killed? && !r.Done? && !(r.CommitError? && fault.CommitLanded?) ==>
                && Stored(key) !in files
                && (id in rows ==> rows[id].key != key)
      ensures !r.Killed? ==> Staged(key.uuid) !in files
      ensures r.NotFound? <==> id !in old(rows)
      ensures id in old(rows) && !Attempted(id, old(rows), expectedSize, limit) ==>
                && r == (if old(rows)[id].status.Created? then Rejected else WrongState)
                && rows == old(rows) && files == old(files)
      ensures Attempted(id, old(rows), expectedSize, limit) && killAt > 4 ==>
                && id in rows && !r.Killed?
                && (!Declared(Collect(chunks, [], limit), expectedSize, expectedSha) || fault.StagingFails? ==>
                      r == if fault.StagingFails? || Collect(chunks, [], limit).Unreadable? then StorageError
                        else Rejected)
                && (Declared(Collect(chunks, [], limit), expectedSize, expectedSha) && !fault.StagingFails? ==>
                      r.WrongState? || r == PublishedOr(fault))
                && (rows[id].status.Created? ==> r.CommitError? && fault.CommitLost?)
    {
      key := Published(id, uuid);
      if id !in rows { return NotFound, key; }
      if !rows[id].status.Created? { return WrongState, key; }
      if expectedSize.Some? && expectedSize.value > limit { return Rejected, key; }
      if killAt == 0 { return Killed, key; }
      var staged, content := StageContent(chunks, fault.StagingFails?);
      if killAt == 1 { return Killed, key; }
      Others({staged, Stored(key)}, {}, id, key.uuid);
      CollectFits(chunks, [], limit);
      r := Offer(id, staged, content, expectedSize, expectedSha, fault, killAt);
    }

    /** Staged content is checked and published, or removed and its artifact given up. */
    method Offer(id: string, staged: Path, content: Content, expectedSize: Option<nat>, expectedSha: Option<Digest>,
                 fault: Fault, killAt: nat)
      returns (r: Outcome)
      requires Valid() && id in rows && staged.Staged? && staged.uuid < uuid
        && Stored(Published(id, staged.uuid)) !in files
      requires content.Whole? ==> staged in files && files[staged] == content.bytes && |content.bytes| <= limit
      requires !content.Whole? ==> staged !in files
      requires rows[id].key != Published(id, staged.uuid)
      modifies this`rows, this`files, this`uuid
      ensures Valid() && !r.NotFound?
      ensures var key := Published(id, staged.uuid);
        && (r.Done? || (r.CommitError? && fault.CommitLanded?) ==>
              && id in rows && rows[id].status.Ready? && rows[id].key == key
                 && Declared(content, expectedSize, expectedSha)
              && Stored(key) in files && files[Stored(key)] == content.bytes)
        && (!r.Killed? && !r.Done? && !(r.CommitError? && fault.CommitLanded?) ==>
              Stored(key) !in files && (id in rows ==> rows[id].key != key))
      ensures !r.Killed? ==> staged !in files
      ensures killAt > 4 ==>
        && id in rows && !r.Killed?
        && r == (if !Declared(content, expectedSize, expectedSha)
                 then (if content.Unreadable? then StorageError else Rejected)
                 else if !old(rows)[id].status.Created? then WrongState else PublishedOr(fault))
        && (rows[id].status.Created? ==> r.CommitError? && fault.CommitLost?)
        && (r.Rejected? || r.StorageError? ==>
              rows == if old(rows)[id].status.Created? then old(rows)[id := old(rows)[id].(status := Failed)]
                else old(rows))
    {
      if !Declared(content, expectedSize, expectedSha) {
        NeverLive(rows, staged);
        DropKeeps(rows, files, uuid, limit, staged);
        files := files - {staged};
        var _ := MarkFailedIfCreated(id);
        return if content.Unreadable? then StorageError else Rejected;
      }
      if killAt == 2 { return Killed; }
      if !rows[id].status.Created? {
        NeverLive(rows, staged);
        DropKeeps(rows, files, uuid, limit, staged);
        files := files - {staged};
        return WrongState;
      }
      var pending := rows[id].(size := Some(|content.bytes|), sha256 := Some(Sha256(content.bytes)),
                               key := Published(id, staged.uuid), status := Ready);
      r := Publish(id, pending, staged, content.bytes, fault, killAt);
    }

    /** The part of mark_ready inside its transaction: rename, sync, commit, and the compensation of each. */
    method Publish(id: string, pending: Row, staged: Path, ghost content: Bytes, fault: Fault,
                   killAt: nat) returns (r: Outcome)
      requires Valid() && id in rows && rows[id].status.Created?
      requires staged.Staged? && staged in files && files[staged] == content && Stored(pending.key) !in files
      requires pending.key == Published(id, staged.uuid) && pending.status.Ready?
      requires pending.size == Some(|content|) && |content| <= limit && pending.sha256 == Some(Sha256(content))
      modifies this`rows, this`files, this`uuid
      ensures Valid()
      ensures r.Done? || (r.CommitError? && fault.CommitLanded?) ==>
                id in rows && rows[id] == pending && Stored(pending.key) in files
                  && files[Stored(pending.key)] == content
      ensures !r.Killed? && !r.Done? && !(r.CommitError? && fault.CommitLanded?) ==>
                Stored(pending.key) !in files && (id in rows ==> rows[id].key != pending.key)
      ensures !r.Killed? ==> staged !in files
      ensures !r.NotFound?
      ensures killAt > 4 ==> r == PublishedOr(fault) && id in rows && (rows[id].status.Created? ==> fault.CommitLost?)
      ensures r.StorageError? ==> rows == old(rows)[id := old(rows)[id].(status := Failed)]
    {
      var destination := Stored(pending.key);
      OnlyOwnRow(rows, files, uuid, limit, pending.key);
      DropKeeps(rows, files, uuid, limit, staged);
      if fault.RenameFails? || fault.SyncFails? {
        if fault.SyncFails? { files := files[destination := files[staged]] - {staged}; }
        files := files - {staged, destination};
        assert files == old(files) - {staged};
        var _ := MarkFailedIfCreated(id);
        return StorageError;
      }
      PutKeeps(rows, files - {staged}, uuid, limit, destination, content);
      files := files[destination := files[staged]] - {staged};
      assert files == (old(files) - {staged})[destination := content];
      if killAt == 3 { return Killed; }
      Others({staged, destination}, {id}, id, staged.uuid);
      r := CommitPublish(id, pending, content, fault, killAt);
    }

    /** The commit of mark_ready and its compensation: the file stays exactly when the row points at it. */
    method CommitPublish(id: string, pending: Row, ghost content: Bytes, fault: Fault, killAt: nat) returns (r: Outcome)
      requires Valid() && id in rows && rows[id].status.Created?
      requires pending.key.Published? && Stored(pending.key) in files && files[Stored(pending.key)] == content
      requires RowOk(id, pending, uuid, limit) && Backed(pending, files) && pending.status.Ready?
      modifies this`rows, this`files
      ensures Valid() && (r.Done? || r.CommitError? || r.Killed?)
      ensures killAt != 4 ==> r == if fault.CommitLost? || fault.CommitLanded? then CommitError else Done
      ensures r.Done? || (r.CommitError? && fault.CommitLanded?) ==>
                rows == old(rows)[id := pending] && files == old(files)
      ensures r.CommitError? && !fault.CommitLanded? ==>
        rows == old(rows) && files == old(files) - {Stored(pending.key)}
    {
      var destination := Stored(pending.key);
      OnlyOwnRow(rows, files, uuid, limit, pending.key);
      if !fault.CommitLost? {
        SetRowKeeps(rows, files, uuid, limit, id, pending);
        rows := rows[id := pending];
      }
      if killAt == 4 { return Killed; }
      if fault.CommitLost? || fault.CommitLanded? {
        if !(rows[id].status.Ready? && rows[id].key == pending.key) {
          DropKeeps(rows, files, uuid, limit, destination);
          files := files - {destination};
        }
        return CommitError;
      }
      return Done;
    }

    /** A CREATED artifact is given up; repeating the call on a FAILED one changes nothing. */
    method MarkFailed(id: string) returns (r: Outcome)
      requires Valid()
      modifies this`rows, this`files
      ensures Valid() && files == old(files)
      ensures r.Done? <==> (id in old(rows) && (old(rows)[id].status.Created? || old(rows)[id].status.Failed?))
      ensures rows == if r.Done? then old(rows)[id := old(rows)[id].(status := Failed)] else old(rows)
    {
      if id !in rows { return NotFound; }
      if rows[id].status.Failed? {
        assert rows == rows[id := rows[id].(status := Failed)];
        return Done;
      }
      if !rows[id].status.Created? { return WrongState; }
      var key := rows[id].key;
      var _ := MarkFailedIfCreated(id);
      files := files - {Stored(key)};
      assert files == old(files);
      return Done;
    }

    /** Expires an artifact: it reads the row, others run, and the rest happens under the lock that its update takes. */
    method Expire(id: string, fault: Fault, killAt: nat) returns (r: Outcome)
      requires Valid()
      modifies this`rows, this`files, this`uuid
      ensures old(rows).Keys <= rows.Keys
      ensures r.NotFound? <==> id !in old(rows)
      ensures id in old(rows) && fault.NoFault? && killAt != 1 && killAt != 2 ==> r.Done?
      ensures !(KilledOverRename(fault, killAt) && id in old(rows) && old(rows)[id].status.Ready?) ==> Valid()
      ensures r.Done? || (r.CommitError? && fault.CommitLanded?) ==>
                && id in rows && rows[id].status.Expired?
                && (!old(rows)[id].status.Created? ==>
                      rows[id].key == old(rows)[id].key && Stored(rows[id].key) !in files)
    {
      if id !in rows { return NotFound; }
      var read := rows[id];
      if read.status.Expired? {
        RemoveExpired(id);
        return Done;
      }
      Others({}, {}, "", uuid);
      r := ExpireLocked(id, read, fault, killAt);
    }

    method RemoveExpired(id: string)
      requires Valid() && id in rows && rows[id].status.Expired?
      modifies this`files
      ensures Valid() && files == old(files) - {Stored(rows[id].key)}
    {
      OnlyOwnRow(rows, files, uuid, limit, rows[id].key);
      DropKeeps(rows, files, uuid, limit, Stored(rows[id].key));
      files := files - {Stored(rows[id].key)};
    }

    /**
     The transaction of expire on a row read earlier: the file at the key that was read is renamed away before the row
     commits and deleted after, so that a commit that does not land can be undone. READY rows stay backed exactly unless
     the process dies between that rename and the commit while the row is READY under the key that was read. The file
     of the expired row is left behind exactly when the row has been published since it was read.
     */
    method ExpireLocked(id: string, read: Row, fault: Fault, killAt: nat) returns (r: Outcome)
      requires Valid() && id in rows && RowOk(id, read, uuid, limit) && !read.status.Expired? && Evolves(read, rows[id])
      modifies this`rows, this`files, this`uuid
      ensures rows.Keys == old(rows).Keys
        && (forall other :: other in rows && other != id ==> rows[other] == old(rows)[other])
      ensures Valid() <==>
        !(KilledOverRename(fault, killAt) && old(rows)[id].status.Ready? && old(rows)[id].key == read.key)
      ensures KilledOverRename(fault, killAt) && old(rows)[id].status.Ready? && old(rows)[id].key == read.key ==>
                rows == old(rows) && Stored(rows[id].key) !in files
      ensures !r.NotFound? && (fault.NoFault? && killAt != 1 && killAt != 2 ==> r.Done?)
      ensures r.Done? || (r.CommitError? && fault.CommitLanded?) ==>
                && rows[id] == old(rows)[id].(status := Expired)
                && (Stored(rows[id].key) in files <==> PublishedSince(read, old(rows)[id]))
      ensures (r.StorageError? && (fault.RenameFails? || fault.SyncFails?)) || (r.CommitError? && fault.CommitLost?) ==>
                rows == old(rows) && files == old(files)
    {
      if rows[id].status.Expired? {
        RemoveExpired(id);
        return Done;
      }
      if Stored(read.key) in files {
        r := ExpireWithFile(id, fault, killAt);
      } else {
        if killAt == 1 { return Killed; }
        if !fault.CommitLost? {
          SetRowKeeps(rows, files, uuid, limit, id, rows[id].(status := Expired));
          rows := rows[id := rows[id].(status := Expired)];
        }
        return if fault.CommitLost? || fault.CommitLanded? then CommitError else if killAt == 2 then Killed else Done;
      }
    }

    /** The file is there, so the row is READY and was so when it was read. */
    method ExpireWithFile(id: string, fault: Fault, killAt: nat) returns (r: Outcome)
      requires Valid() && id in rows && !rows[id].status.Expired? && Stored(rows[id].key) in files
      modifies this`rows, this`files, this`uuid
      ensures rows == old(rows) || rows == old(rows)[id := old(rows)[id].(status := Expired)]
      ensures Valid() <==> !KilledOverRename(fault, killAt)
      ensures KilledOverRename(fault, killAt) ==> rows == old(rows) && Stored(rows[id].key) !in files
      ensures !r.NotFound? && (fault.NoFault? && killAt != 1 && killAt != 2 ==> r.Done?)
      ensures r.Done? || (r.CommitError? && fault.CommitLanded?) ==>
                rows == old(rows)[id := old(rows)[id].(status := Expired)]
                  && files == old(files) - {Stored(rows[id].key)}
      ensures (r.StorageError? && (fault.RenameFails? || fault.SyncFails?)) || (r.CommitError? && fault.CommitLost?) ==>
                rows == old(rows) && files == old(files)
    {
      var row := rows[id];
      var source := Stored(row.key);
      var quarantine := Quarantined(uuid);
      DrawKeeps(rows, files, uuid, limit);
      uuid := uuid + 1;
      if fault.RenameFails? { return StorageError; }
      files := files[quarantine := files[source]] - {source};
      if fault.SyncFails? {
        files := files[source := files[quarantine]] - {quarantine};
        assert files == old(files);
        return StorageError;
      }
      if killAt == 1 {
        assert row.status.Ready? && !Backed(rows[id], files);
        return Killed;
      }
      ExpiredKeeps(rows, old(files), uuid, limit, id);
      if fault.CommitLost? || fault.CommitLanded? {
        if fault.CommitLanded? { rows := rows[id := row.(status := Expired)]; }
        RecoverFailedExpiration(id, source, quarantine);
        assert fault.CommitLost? ==> files == old(files);
        assert fault.CommitLanded? ==> files == old(files) - {source};
        return CommitError;
      }
      rows := rows[id := row.(status := Expired)];
      if killAt == 2 {
        PutKeeps(rows, old(files) - {source}, uuid, limit, quarantine, old(files)[source]);
        assert files == (old(files) - {source})[quarantine := old(files)[source]];
        return Killed;
      }
      if fault.UnlinkFails? {
        files := files[source := files[quarantine]] - {quarantine};
        assert files == old(files);
        return StorageError;
      }
      files := files - {quarantine};
      assert files == old(files) - {source};
      return Done;
    }

    /** After a raised commit the row decides: still live, so the file goes back; already expired, so it goes away. */
    method RecoverFailedExpiration(id: string, source: Path, quarantine: Path)
      requires id in rows && quarantine in files && source !in files && source != quarantine
      modifies this`files
      ensures files == if rows[id].status.Expired? then old(files) - {quarantine}
                       else old(files)[source := old(files)[quarantine]] - {quarantine}
    {
      if rows[id].status.Expired? {
        files := files - {quarantine};
      } else {
        files := files[source := files[quarantine]] - {quarantine};
      }
    }

    /** Returns content only when it is what the row recorded; nothing about the files is taken for granted. */
    method Read(id: string) returns (r: ReadResult)
      ensures r.Bytes? <==>
                && id in rows && rows[id].status.Ready? && rows[id].size.Some? && rows[id].sha256.Some?
                && Stored(rows[id].key) in files && |files[Stored(rows[id].key)]| <= limit
                && Backed(rows[id], files)
      ensures r.Bytes? ==> r.content == files[Stored(rows[id].key)] && rows[id].sha256 == Some(Sha256(r.content))
      ensures Valid() && id in rows && rows[id].status.Ready? ==> r.Bytes?
    {
      if id !in rows { return Refused(NotFound); }
      var row := rows[id];
      if !row.status.Ready? { return Refused(WrongState); }
      if row.size.None? || row.sha256.None? { return Refused(Rejected); }
      if Stored(row.key) !in files { return Refused(StorageError); }
      var content := files[Stored(row.key)];
      if |content| > limit || |content| != row.size.value || Sha256(content) != row.sha256.value {
        return Refused(Rejected);
      }
      return ReadResult.Bytes(content);
    }
  }

  /** A repository with one READY artifact. */
  method OneReady() returns (repository: ArtifactRepository)
    ensures fresh(repository) && repository.Valid()
    ensures repository.rows == map["a" := Row("response", Ready, Some(0), Some(Sha256([])), Published("a", 0))]
    ensures repository.files == map[Stored(Published("a", 0)) := []] && 0 < repository.uuid
  {
    repository := new ArtifactRepository(0);
    repository.uuid := 1;
    repository.files := map[Stored(Published("a", 0)) := []];
    repository.rows := map["a" := Row("response", Ready, Some(0), Some(Sha256([])), Published("a", 0))];
  }

  /** A kill between the rename and the commit of expire leaves a READY row without its file. */
  method KilledExpiryLosesFile() returns (rows: map<string, Row>, files: map<Path, Bytes>)
    ensures "a" in rows && rows["a"].status.Ready? && !Backed(rows["a"], files)
  {
    var repository := OneReady();
    var _ := repository.ExpireLocked("a", repository.rows["a"], NoFault, 1);
    rows, files := repository.rows, repository.files;
  }

  /** An expire that read the row before it was published succeeds and leaves the published file behind. */
  method StaleExpiryLeavesFile() returns (r: Outcome, rows: map<string, Row>, files: map<Path, Bytes>)
    ensures r.Done? && "a" in rows && rows["a"].status.Expired? && Stored(rows["a"].key) in files
  {
    var repository := OneReady();
    r := repository.ExpireLocked("a", Row("response", Created, None, None, Initial("a")), NoFault, 0);
    rows, files := repository.rows, repository.files;
  }
}
