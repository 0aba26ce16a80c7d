/** Serving one round of a PUT into a staging file: server.cpp `serve_put`. */
module Uploads {
  import opened Common
  import opened Decimals
  import opened Rounds
  import opened Net
  import opened Scheduling
  import opened Serving
  import opened Paths

  /** File contents after writing `data` at position `off`; a gap is filled with zero bytes. */
  function WriteAt(content: Bytes, off: nat, data: Bytes): Bytes {
    if off >= |content| then content + seq(off - |content|, i => '\0') + data
    else if off + |data| >= |content| then content[..off] + data
    else content[..off] + data + content[off + |data|..]
  }

  /** Every position of the result: the data where it was written, zero bytes in a gap, else what was there. */
  lemma WriteAtMeans(content: Bytes, off: nat, data: Bytes)
    ensures var r := WriteAt(content, off, data);
            && |r| == (if off + |data| > |content| then off + |data| else |content|)
            && forall i :: 0 <= i < |r| ==>
                 r[i] == if off <= i < off + |data| then data[i - off]
                         else if i < |content| then content[i] else '\0'
  {
  }

  lemma WriteAtEnd(content: Bytes, data: Bytes)
    ensures WriteAt(content, |content|, data) == content + data
  {
    assert seq(0, i => '\0') == "";
  }

  /** The served directory. */
  class FileStore {
    var files: map<string, Bytes>
    /** The files on which the operating system has refused an operation, in order. */
    var refusals: seq<string>

    constructor (files: map<string, Bytes>)
      ensures this.files == files && refusals == []
    {
      this.files, refusals := files, [];
    }

    /** Whether the operating system lets an operation on the file pass. */
    method Permit(name: string) returns (ok: bool)
      modifies this`refusals
      ensures refusals == if ok then old(refusals) else old(refusals) + [name]
    {
      ok := *;
      if !ok {
        refusals := refusals + [name];
      }
    }

    /** Creates the file empty, or empties it. */
    method Truncate(name: string) returns (ok: bool)
      modifies this
      ensures files == if ok then old(files)[name := []] else old(files)
      ensures refusals == if ok then old(refusals) else old(refusals) + [name]
    {
      ok := Permit(name);
      if ok {
        files := files[name := []];
      }
    }

    /** Writes at a position of an existing file. */
    method Write(name: string, off: nat, data: Bytes) returns (ok: bool)
      requires name in files
      modifies this
      ensures files == if ok then old(files)[name := WriteAt(old(files)[name], off, data)] else old(files)
      ensures refusals == if ok then old(refusals) else old(refusals) + [name]
    {
      ok := Permit(name);
      if ok {
        files := files[name := WriteAt(files[name], off, data)];
      }
    }

    /** Deletes the file if it is there. */
    method Remove(name: string)
      modifies this`files
      ensures files == old(files) - {name}
    {
      files := files - {name};
    }

    /** Atomically moves an existing file to another name, replacing what that held. */
    method Rename(from: string, to: string) returns (ok: bool)
      requires from in files
      modifies this
      ensures files == if ok then (old(files) - {from})[to := old(files)[from]] else old(files)
      ensures refusals == if ok then old(refusals) else old(refusals) + [from]
    {
      ok := Permit(from);
      if ok {
        files := (files - {from})[to := files[from]];
      }
    }
  }

  /** The body bytes still to come for a request: header leftovers, then the connection. */
  function Ahead(pending: Bytes, pendingOffset: nat, chunks: seq<Bytes>): Bytes {
    Leftover(pending, pendingOffset) + Flatten(chunks)
  }

  function Leftover(pending: Bytes, pendingOffset: nat): Bytes {
    if pendingOffset <= |pending| then pending[pendingOffset..] else []
  }

  /** Bytes of a request that arrived together with its header line and are not yet written. */
  function Left(j: Job): nat {
    |Leftover(j.pending, j.pendingOffset)|
  }

  /** Why a PUT round gave up. */
  datatype Refusal =
    | BadName | NotCreatedEmpty | CannotCreate | CannotOpen | Missing | SeekError | WriteError
    | CannotCommit | ReceiveError | Incomplete
  {
    /** The operating system refused an operation on the staging file. */
    predicate OfDisk() {
      NotCreatedEmpty? || CannotCreate? || CannotOpen? || SeekError? || WriteError? || CannotCommit?
    }
  }

  /** What the client is told; nothing when an empty upload cannot be created. */
  function RefusalLine(why: Refusal): Bytes {
    match why
    case BadName => ErrorLine("invalid filename")
    case NotCreatedEmpty => []
    case CannotCreate => ErrorLine("cannot create file")
    case CannotOpen => ErrorLine("cannot open file")
    case Missing => ErrorLine("cannot open file")
    case SeekError => ErrorLine("file seek error")
    case WriteError => ErrorLine("file write error")
    case CannotCommit => ErrorLine("cannot commit file")
    case ReceiveError => ErrorLine("receive error")
    case Incomplete => ErrorLine("incomplete upload")
  }

  // The texts, letter by letter.

  lemma CannotCreateLine()
    ensures ErrorLine("cannot create file") == "ERR cannot create file\n"
  {
  }

  lemma CannotOpenLine()
    ensures ErrorLine("cannot open file") == "ERR cannot open file\n"
  {
  }

  lemma SeekErrorLine()
    ensures ErrorLine("file seek error") == "ERR file seek error\n"
  {
  }

  lemma WriteErrorLine()
    ensures ErrorLine("file write error") == "ERR file write error\n"
  {
  }

  lemma CannotCommitLine()
    ensures ErrorLine("cannot commit file") == "ERR cannot commit file\n"
  {
  }

  lemma ReceiveErrorLine()
    ensures ErrorLine("receive error") == "ERR receive error\n"
  {
  }

  lemma IncompleteLine()
    ensures ErrorLine("incomplete upload") == "ERR incomplete upload\n"
  {
  }

  lemma RefusalText(why: Refusal)
    ensures RefusalLine(why) ==
            match why
            case BadName => "ERR invalid filename\n"
            case NotCreatedEmpty => ""
            case CannotCreate => "ERR cannot create file\n"
            case CannotOpen => "ERR cannot open file\n"
            case Missing => "ERR cannot open file\n"
            case SeekError => "ERR file seek error\n"
            case WriteError => "ERR file write error\n"
            case CannotCommit => "ERR cannot commit file\n"
            case ReceiveError => "ERR receive error\n"
            case Incomplete => "ERR incomplete upload\n"
  {
    hide ErrorLine;
    match why
    case BadName => InvalidFilenameLine();
    case NotCreatedEmpty =>
    case CannotCreate => CannotCreateLine();
    case CannotOpen => CannotOpenLine();
    case Missing => CannotOpenLine();
    case SeekError => SeekErrorLine();
    case WriteError => WriteErrorLine();
    case CannotCommit => CannotCommitLine();
    case ReceiveError => ReceiveErrorLine();
    case Incomplete => IncompleteLine();
  }

  /** The refused operations after a round: one more, on the staging file, exactly when that is why it gave up. */
  function Noted(refusals: seq<string>, staging: string, why: Option<Refusal>): seq<string> {
    if why.Some? && why.value.OfDisk() then refusals + [staging] else refusals
  }

  /** Why the bytes of a round could not be staged: the disk, or a stream with fewer than `size` bytes. */
  predicate BodyCause(why: Refusal, ahead: nat, size: nat, aborts: bool) {
    match why
    case WriteError => true
    case ReceiveError => ahead < size && aborts
    case Incomplete => ahead < size && !aborts
    case _ => false
  }

  /** Why a round for `j` was refused, when its name is good; `staged` says that its staging file was there. */
  predicate StagedCause(why: Refusal, j: Job, staged: bool, ahead: nat, size: nat, aborts: bool) {
    match why
    case BadName => false
    case NotCreatedEmpty => j.total == 0
    case CannotCreate => j.total > 0 && j.offset == 0
    case CannotOpen => j.total > 0 && (j.offset == 0 || staged)
    case Missing => j.total > 0 && j.offset > 0 && !staged
    case SeekError => j.total > 0 && (j.offset == 0 || staged)
    case CannotCommit => false
    case _ => j.total > 0 && BodyCause(why, ahead, size, aborts)
  }

  predicate Cause(why: Refusal, j: Job, staged: bool, ahead: nat, size: nat, aborts: bool) {
    if !IsValidFilename(j.name) then why.BadName? else StagedCause(why, j, staged, ahead, size, aborts)
  }

  lemma LeftoverSize(pending: Bytes, from: nat)
    ensures |Leftover(pending, from)| == if from <= |pending| then |pending| - from else 0
    ensures Leftover(pending, from)[..0] == []
  {
  }

  lemma LeftoverChunk(pending: Bytes, from: nat, written: nat, chunk: nat)
    requires from + written + chunk <= |pending|
    ensures |Leftover(pending, from)| == |pending| - from
    ensures Leftover(pending, from)[..written] + pending[from + written..from + written + chunk]
            == Leftover(pending, from)[..written + chunk]
  {
  }

  /** First half of a round: bytes that arrived together with the header line. */
  method WriteLeftover(r: Request, store: FileStore, conn: Connection, size: nat) returns (ok: bool, written: nat)
    requires r.staging in store.files
    modifies r`pendingOffset, store, conn`wire, conn`sends, conn`broken, conn`stalls
    ensures store.refusals == Noted(old(store.refusals), r.staging, if ok then None else Some(WriteError))
    ensures !ok && !conn.broken ==> conn.wire == old(conn.wire) + RefusalLine(WriteError)
    ensures old(conn.broken) ==> conn.broken
    ensures store.files - {r.staging} == old(store.files) - {r.staging}
    ensures ok ==>
              && written == Min(size, Left(old(r.Value())))
              && r.pendingOffset == old(r.pendingOffset) + written
              && conn.wire == old(conn.wire) && conn.broken == old(conn.broken)
              && r.staging in store.files
              && (|old(store.files)[r.staging]| == r.offset ==>
                    store.files[r.staging] == old(store.files)[r.staging]
                                              + Leftover(r.pending, old(r.pendingOffset))[..written])
  {
    hide WriteAt, Leftover, ErrorLine;
    written := 0;
    LeftoverSize(r.pending, r.pendingOffset);
    ghost var base, leftover := store.files[r.staging], Leftover(r.pending, r.pendingOffset);
    while written < size && r.pendingOffset < |r.pending|
      invariant written <= size && written <= |leftover|
      invariant r.pendingOffset == old(r.pendingOffset) + written
      invariant conn.wire == old(conn.wire) && conn.broken == old(conn.broken)
      invariant store.refusals == old(store.refusals)
      invariant r.staging in store.files
      invariant store.files - {r.staging} == old(store.files) - {r.staging}
      invariant |base| == r.offset ==> store.files[r.staging] == base + leftover[..written]
    {
      var chunk := Min(size - written, |r.pending| - r.pendingOffset);
      var data := r.pending[r.pendingOffset..r.pendingOffset + chunk];
      LeftoverChunk(r.pending, old(r.pendingOffset), written, chunk);
      WriteAtEnd(base + leftover[..written], data);
      ok := store.Write(r.staging, r.offset + written, data);
      if !ok {
        var _ := conn.SendAll(ErrorLine("file write error"));
        return false, written;
      }
      r.pendingOffset := r.pendingOffset + chunk;
      written := written + chunk;
    }
    ok := true;
  }

  /** Second half of a round: exactly `size` bytes from the connection, however they are split. */
  method ReceiveRest(r: Request, store: FileStore, conn: Connection, off: nat, size: nat, bufferSize: nat)
    returns (ok: bool, ghost why: Option<Refusal>)
    requires r.staging in store.files
    requires size > 0 ==> bufferSize > 0
    modifies store, conn`incoming, conn`wire, conn`sends, conn`broken, conn`stalls
    ensures ok <==> why.None?
    ensures store.refusals == Noted(old(store.refusals), r.staging, why)
    ensures !ok ==> BodyCause(why.value, |Flatten(old(conn.incoming))|, size, conn.aborts)
    ensures !ok && !conn.broken ==> conn.wire == old(conn.wire) + RefusalLine(why.value)
    ensures old(conn.broken) ==> conn.broken
    ensures store.files - {r.staging} == old(store.files) - {r.staging}
    ensures ok ==>
              && size <= |Flatten(old(conn.incoming))|
              && Flatten(conn.incoming) == Flatten(old(conn.incoming))[size..]
              && conn.wire == old(conn.wire) && conn.broken == old(conn.broken)
              && r.staging in store.files
              && (|old(store.files)[r.staging]| == off ==>
                    store.files[r.staging] == old(store.files)[r.staging] + Flatten(old(conn.incoming))[..size])
  {
    hide WriteAt, Flatten, RefusalLine;
    var written := 0;
    ghost var base, stream := store.files[r.staging], Flatten(conn.incoming);
    while written < size
      invariant written <= size && written <= |stream|
      invariant Flatten(conn.incoming) == stream[written..]
      invariant conn.wire == old(conn.wire) && conn.broken == old(conn.broken)
      invariant store.refusals == old(store.refusals)
      invariant r.staging in store.files
      invariant store.files - {r.staging} == old(store.files) - {r.staging}
      invariant |base| == off ==> store.files[r.staging] == base + stream[..written]
    {
      var n;
      n, why := ReceiveChunk(r, store, conn, off + written, Min(bufferSize, size - written));
      if n == 0 {
        return false, why;
      }
      assert stream[..written] + stream[written..][..n] == stream[..written + n];
      WriteAtEnd(base + stream[..written], stream[written..][..n]);
      written := written + n;
    }
    return true, None;
  }

  /** One receive, written to the staging file. */
  method ReceiveChunk(r: Request, store: FileStore, conn: Connection, off: nat, max: nat)
    returns (n: nat, ghost why: Option<Refusal>)
    requires r.staging in store.files && max > 0
    modifies store, conn`incoming, conn`wire, conn`sends, conn`broken, conn`stalls
    ensures n > 0 <==> why.None?
    ensures store.refusals == Noted(old(store.refusals), r.staging, why)
    ensures store.files - {r.staging} == old(store.files) - {r.staging}
    ensures old(conn.broken) ==> conn.broken
    ensures n > 0 ==>
              var stream := Flatten(old(conn.incoming));
              && n <= max && n <= |stream| && Flatten(conn.incoming) == stream[n..]
              && store.files == old(store.files)[r.staging := WriteAt(old(store.files)[r.staging], off, stream[..n])]
              && conn.wire == old(conn.wire) && conn.broken == old(conn.broken)
    ensures n == 0 && !conn.broken ==> conn.wire == old(conn.wire) + RefusalLine(why.value)
    ensures n == 0 && !why.value.WriteError? ==>
              Flatten(old(conn.incoming)) == [] && why.value == if conn.aborts then ReceiveError else Incomplete
  {
    hide WriteAt, Flatten, FirstRecv, ErrorLine;
    var got := conn.Recv(max);
    if got == [] && conn.aborts {
      var _ := conn.SendAll(ErrorLine("receive error"));
      return 0, Some(ReceiveError);
    }
    if got == [] {
      var _ := conn.SendAll(ErrorLine("incomplete upload"));
      return 0, Some(Incomplete);
    }
    var ok := store.Write(r.staging, off, got);
    if !ok {
      var _ := conn.SendAll(ErrorLine("file write error"));
      return 0, Some(WriteError);
    }
    return |got|, None;
  }

  /**
   * One budgeted PUT round: the next `min(budget, remaining)` bytes of the body go to the staging
   * file, header leftovers first. No other file is touched, whatever the outcome, and every
   * refusal has its cause and its error line.
   */
  method ServePut(r: Request, store: FileStore, conn: Connection, budget: nat)
    returns (ok: bool, processed: nat, ghost why: Option<Refusal>)
    requires r.offset <= r.total
    modifies r`staging, r`pendingOffset, store, conn`incoming, conn`wire, conn`sends, conn`broken, conn`stalls
    ensures r.staging == if IsValidFilename(r.name) && r.offset == 0 then StagingName(r.name, r.id) else old(r.staging)
    ensures store.files - {r.staging} == old(store.files) - {r.staging}
    ensures old(conn.broken) ==> conn.broken
    ensures Contained(r.name) && r.offset == 0 ==> r.staging == r.name + ".upload." + Decimal(r.id)
    ensures ok ==> IsValidFilename(r.name) && Contained(r.name)
    ensures why == Some(BadName) <==> !Contained(r.name)
    ensures store.refusals == Noted(old(store.refusals), r.staging, why)
    ensures ok ==> conn.wire == old(conn.wire) && conn.broken == old(conn.broken)
    ensures ok ==>
              && processed == Min(budget, r.total - r.offset)
              && r.Value() == old(r.Value()).(
                   staging := r.staging,
                   pendingOffset := old(r.pendingOffset) + Min(processed, Left(old(r.Value()))))
    ensures ok ==>
              var ahead := Ahead(r.pending, old(r.pendingOffset), old(conn.incoming));
              && processed <= |ahead|
              && Ahead(r.pending, r.pendingOffset, conn.incoming) == ahead[processed..]
              && r.staging in store.files
              && (r.offset == 0 || (r.staging in old(store.files) && |old(store.files)[r.staging]| == r.offset) ==>
                    store.files[r.staging]
                    == (if r.offset == 0 then [] else old(store.files)[r.staging]) + ahead[..processed])
    ensures ok <==> why.None?
    ensures !ok && !conn.broken ==> conn.wire == old(conn.wire) + RefusalLine(why.value)
    ensures !ok ==>
              Cause(why.value, old(r.Value()), r.staging in old(store.files),
                    |Ahead(r.pending, old(r.pendingOffset), old(conn.incoming))|,
                    Min(budget, r.total - r.offset), conn.aborts)
  {
    hide StagingName, IsValidFilename, Contained, WriteAt, Min, ErrorLine, Ahead, Leftover, BodyCause, Noted;
    ValidIsContained(r.name);
    StagingText(r.name, r.id);
    if !IsValidFilename(r.name) {
      var _ := conn.SendAll(ErrorLine("invalid filename"));
      NotOfDisk(store.refusals, r.staging);
      return false, 0, Some(BadName);
    }
    if r.offset == 0 {
      r.staging := StagingName(r.name, r.id);
    }
    ok, processed, why := ServeStaged(r, store, conn, budget);
  }

  lemma NotOfDisk(refusals: seq<string>, staging: string)
    ensures Noted(refusals, staging, Some(BadName)) == refusals
  {
  }

  /** The round under a staging name that has been chosen. */
  method ServeStaged(r: Request, store: FileStore, conn: Connection, budget: nat)
    returns (ok: bool, processed: nat, ghost why: Option<Refusal>)
    requires r.offset <= r.total
    modifies r`pendingOffset, store, conn`incoming, conn`wire, conn`sends, conn`broken, conn`stalls
    ensures store.files - {r.staging} == old(store.files) - {r.staging}
    ensures old(conn.broken) ==> conn.broken
    ensures store.refusals == Noted(old(store.refusals), r.staging, why)
    ensures ok <==> why.None?
    ensures ok ==>
              var ahead := Ahead(r.pending, old(r.pendingOffset), old(conn.incoming));
              && processed == Min(budget, r.total - r.offset) <= |ahead|
              && r.pendingOffset == old(r.pendingOffset) + Min(processed, Left(old(r.Value())))
              && Ahead(r.pending, r.pendingOffset, conn.incoming) == ahead[processed..]
              && conn.wire == old(conn.wire) && conn.broken == old(conn.broken)
              && r.staging in store.files
              && (r.offset == 0 || (r.staging in old(store.files) && |old(store.files)[r.staging]| == r.offset) ==>
                    store.files[r.staging]
                    == (if r.offset == 0 then [] else old(store.files)[r.staging]) + ahead[..processed])
    ensures !ok && !conn.broken ==> conn.wire == old(conn.wire) + RefusalLine(why.value)
    ensures !ok ==>
              StagedCause(why.value, old(r.Value()), r.staging in old(store.files),
                          |Ahead(r.pending, old(r.pendingOffset), old(conn.incoming))|,
                          Min(budget, r.total - r.offset), conn.aborts)
  {
    hide WriteAt, Min, ErrorLine, RefusalLine;
    processed := 0;
    if r.total == 0 {
      ok := store.Truncate(r.staging);
      MinZero(budget);
      MinZero(Left(r.Value()));
      SilentRefusal();
      return ok, 0, if ok then None else Some(NotCreatedEmpty);
    }
    ok, why := OpenStaging(r, store, conn);
    if !ok {
      return false, 0, why;
    }
    ok, processed, why := ReceiveBody(r, store, conn, Min(budget, r.total - r.offset));
  }

  lemma SilentRefusal()
    ensures RefusalLine(NotCreatedEmpty) == []
  {
  }

  /** Creates the staging file in the first round, and opens it at the place the round continues. */
  method OpenStaging(r: Request, store: FileStore, conn: Connection) returns (ok: bool, ghost why: Option<Refusal>)
    requires r.total > 0
    modifies store, conn`wire, conn`sends, conn`broken, conn`stalls
    ensures store.files - {r.staging} == old(store.files) - {r.staging}
    ensures old(conn.broken) ==> conn.broken
    ensures ok ==>
              && conn.wire == old(conn.wire) && conn.broken == old(conn.broken)
              && r.staging in store.files
              && (r.offset > 0 ==> store.files == old(store.files))
              && (r.offset == 0 ==> store.files[r.staging] == [])
    ensures ok <==> why.None?
    ensures store.refusals == Noted(old(store.refusals), r.staging, why)
    ensures !ok && !conn.broken ==> conn.wire == old(conn.wire) + RefusalLine(why.value)
    ensures !ok ==>
              match why.value
              case CannotCreate => r.offset == 0
              case CannotOpen => r.offset == 0 || r.staging in old(store.files)
              case Missing => r.offset > 0 && r.staging !in old(store.files)
              case SeekError => r.offset == 0 || r.staging in old(store.files)
              case _ => false
  {
    if r.offset == 0 {
      var created := store.Truncate(r.staging);
      if !created {
        var _ := conn.SendAll(ErrorLine("cannot create file"));
        return false, Some(CannotCreate);
      }
    }
    if r.staging !in store.files {
      var _ := conn.SendAll(ErrorLine("cannot open file"));
      return false, Some(Missing);
    }
    var found := store.Permit(r.staging);
    if !found {
      var _ := conn.SendAll(ErrorLine("cannot open file"));
      return false, Some(CannotOpen);
    }
    var ready := store.Permit(r.staging);
    if !ready {
      var _ := conn.SendAll(ErrorLine("file seek error"));
      return false, Some(SeekError);
    }
    return true, None;
  }

  lemma StagingText(name: string, id: nat)
    ensures StagingName(name, id) == name + ".upload." + Decimal(id)
  {
  }

  lemma MinZero(n: nat)
    ensures Min(n, 0) == Min(0, n) == 0
  {
  }

  method ReceiveBody(r: Request, store: FileStore, conn: Connection, size: nat)
    returns (ok: bool, processed: nat, ghost why: Option<Refusal>)
    requires r.staging in store.files
    modifies r`pendingOffset, store, conn`incoming, conn`wire, conn`sends, conn`broken, conn`stalls
    ensures store.files - {r.staging} == old(store.files) - {r.staging}
    ensures ok <==> why.None?
    ensures store.refusals == Noted(old(store.refusals), r.staging, why)
    ensures !ok && !conn.broken ==> conn.wire == old(conn.wire) + RefusalLine(why.value)
    ensures !ok ==>
              BodyCause(why.value, |Ahead(r.pending, old(r.pendingOffset), old(conn.incoming))|,
                        size, conn.aborts)
    ensures old(conn.broken) ==> conn.broken
    ensures ok ==> conn.wire == old(conn.wire) && conn.broken == old(conn.broken)
    ensures ok ==>
              var ahead := Ahead(r.pending, old(r.pendingOffset), old(conn.incoming));
              && processed == size <= |ahead|
              && r.pendingOffset == old(r.pendingOffset) + Min(processed, Left(old(r.Value())))
              && Ahead(r.pending, r.pendingOffset, conn.incoming) == ahead[processed..]
              && r.staging in store.files
              && (|old(store.files)[r.staging]| == r.offset ==>
                    store.files[r.staging] == old(store.files)[r.staging] + ahead[..processed])
  {
    hide Flatten, Leftover, Ahead;
    ghost var ahead := Ahead(r.pending, r.pendingOffset, conn.incoming);
    var bufferSize := Min(8192, size);
    ok, processed := WriteLeftover(r, store, conn, size);
    why := if ok then None else Some(WriteError);
    if ok {
      AheadSplit(r.pending, old(r.pendingOffset), conn.incoming, processed, size);
      ok, why := ReceiveRest(r, store, conn, r.offset + processed, size - processed, bufferSize);
      processed := size;
    }
  }

  /** Taking the leftovers first and the rest from the connection is taking from the whole stream. */
  lemma AheadSplit(pending: Bytes, pendingOffset: nat, chunks: seq<Bytes>, written: nat, size: nat)
    requires written == Min(size, |Leftover(pending, pendingOffset)|)
    ensures var leftover, rest, ahead :=
              Leftover(pending, pendingOffset), Flatten(chunks), Ahead(pending, pendingOffset, chunks);
            && |ahead| == |leftover| + |rest|
            && (size - written <= |rest| ==>
                  && leftover[..written] + rest[..size - written] == ahead[..size]
                  && forall later: seq<Bytes> :: Flatten(later) == rest[size - written..] ==>
                       Ahead(pending, pendingOffset + written, later) == ahead[size..])
  {
    var leftover, rest := Leftover(pending, pendingOffset), Flatten(chunks);
    if size - written <= |rest| {
      TakeAcross(leftover, rest, written, size);
      assert Leftover(pending, pendingOffset + written) == leftover[written..];
    }
  }

  lemma TakeAcross(a: Bytes, b: Bytes, written: nat, size: nat)
    requires written == Min(size, |a|) && size - written <= |b|
    ensures a[..written] + b[..size - written] == (a + b)[..size]
    ensures a[written..] + b[size - written..] == (a + b)[size..]
  {
    if size <= |a| {
      assert b[..0] == [] && b[0..] == b;
    } else {
      assert a[..|a|] == a && a[|a|..] == [];
    }
  }
}
