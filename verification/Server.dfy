/**
 * The server object. Its methods are the server operations of the protocol, field by field, and keep it sound: under
 * every path lies a prefix of the client's content, or an older file that the first query of the path will remove.
 */
module TransferServer {
  import opened Wrappers
  import opened FileBytes
  import opened Protocol
  import opened ProtocolShape
  import opened ProtocolSafety
  import opened ProtocolRuns
  import opened ProtocolQueries
  import SF = ServerFile
  import W = Worker

  /** What the error and done channels of a session hold when the receive loop looks at them. */
  datatype Signal = Quiet | WriteFailed | WriterDone

  /** The loop runs as long as the channels are quiet, and ends with the first one that is not, or with the stream. */
  predicate LoopEnded(signals: seq<Signal>, handled: nat) {
    && handled <= |signals|
    && (handled < |signals| ==> handled > 0 && signals[handled - 1] != Quiet)
    && (handled > 0 ==> AllQuiet(signals[..handled - 1]))
  }

  predicate AllQuiet(signals: seq<Signal>) {
    forall k :: 0 <= k < |signals| ==> signals[k] == Quiet
  }

  /** What the loop has seen of the channels after k requests. */
  predicate SoFar(signals: seq<Signal>, k: nat, quiet: bool) {
    && k <= |signals| && (k > 0 ==> AllQuiet(signals[..k - 1]) && (quiet <==> signals[k - 1] == Quiet))
    && (k == 0 ==> quiet)
  }

  lemma QuietSoFar(signals: seq<Signal>, k: nat)
    requires k < |signals| && SoFar(signals, k, true)
    ensures SoFar(signals, k + 1, signals[k] == Quiet)
  {
    if k > 0 {
      assert signals[..k] == signals[..k - 1] + [signals[k - 1]];
    }
  }

  class TorrxferServer {
    const env: Env
    var activeFiles: map<string, nat>
    var fileDb: map<string, string>
    var disk: map<string, Bytes>
    var sessions: map<nat, Session>
    var queries: nat

    ghost function View(): Server
      reads this
    {
      Server(disk, fileDb, activeFiles, sessions)
    }

    /** Every active client has its session, sessions are numbered by the queries made so far, and every path is safe. */
    ghost predicate Valid()
      reads this
    {
      HashOk(env) && Secure(env, View(), queries)
    }

    constructor (env: Env, disk: map<string, Bytes>, fileDb: map<string, string>)
      requires HashOk(env) && forall p :: p in env.content ==> DiskOkAt(env, Server(disk, fileDb, map[], map[]), p)
      ensures Valid() && this.env == env && View() == Server(disk, fileDb, map[], map[])
    {
      this.env := env;
      this.disk, this.fileDb, activeFiles, sessions, queries := disk, fileDb, map[], map[], 0;
    }

    /** The session's record through the record object. */
    method RecordText(f: Session) returns (text: Option<string>)
      ensures text == SF.Encode(env.fmt, RecordOf(f))
    {
      var record := new SF.File(RecordOf(f));
      var bytes := record.MarshalText(env.fmt);
      text := if bytes == None then None else Some(bytes.value[..]);
    }

    /** Session id takes the client's chunks. */
    predicate Current(clientID: string, id: nat)
      reads this
    {
      clientID in activeFiles && activeFiles[clientID] == id && id in sessions
    }

    /** The session of a query that was not known: nothing reached yet, and the server's own times. */
    predicate NewlyAdded(f: Session, path: string, dataHash: string, size: nat, meta: QueryMeta) {
      Primed(f, path, dataHash, meta.mediaPrefix, size, 0, meta.createdAt, meta.modifiedAt)
    }

    /** The session of a query that was: the file as it is, the client's time, and that of the file. */
    ghost predicate Continued(f: Session, path: string, dataHash: string, size: nat, meta: QueryMeta)
      reads this
    {
      Primed(f, path, dataHash, meta.mediaPrefix, size, |FileOnDisk(View(), path)|, meta.clientTime,
             if path in disk then meta.diskTime else SF.EPOCH)
    }

    /** A whole query, undisturbed. No other session is touched, but for the name its file may lose. */
    method QueryFunction(clientID: string, path: string, dataHash: string, size: nat, meta: QueryMeta)
      returns (reply: W.QueryResult)
      requires Valid() && path in env.content && dataHash == env.hash(env.content[path]) && size == |env.content[path]|
      modifies this
      ensures Valid() && queries == old(queries) + 1
      ensures (View(), reply) == Query(env, old(View()), old(queries), clientID, path, dataHash, size, meta)
      ensures reply.Reply? && dataHash !in old(fileDb) ==>
                Current(clientID, old(queries)) && NewlyAdded(sessions[old(queries)], path, dataHash, size, meta)
      ensures reply.Reply? && dataHash in old(fileDb) && reply.dataHash != dataHash ==>
                Current(clientID, old(queries)) && Continued(sessions[old(queries)], path, dataHash, size, meta)
      ensures forall id :: id in old(sessions) ==>
                id in sessions && sessions[id].(linked := true) == old(sessions[id]).(linked := true)
    {
      var id := queries;
      ghost var before := View();
      queries := queries + 1;
      if dataHash !in fileDb {
        reply := AddFile(id, clientID, path, dataHash, size, meta);
        MissSecure(env, before, id, clientID, path, meta);
      } else {
        reply := ContinueFile(id, clientID, path, dataHash, size, meta);
        HitSecure(env, before, id, clientID, path, meta);
      }
    }

    /** First branch: a file the database does not know. */
    method AddFile(id: nat, clientID: string, path: string, dataHash: string, size: nat, meta: QueryMeta)
      returns (reply: W.QueryResult)
      modifies `activeFiles, `fileDb, `disk, `sessions
      ensures (View(), reply) == QueryMiss(env, old(View()), id, clientID, path, dataHash, size, meta)
      ensures reply.Reply? ==>
                && Current(clientID, id) && dataHash in fileDb
                && NewlyAdded(sessions[id], path, dataHash, size, meta)
                && SF.Encode(env.fmt, SF.Record(path, meta.mediaPrefix, size, 0, meta.createdAt, meta.modifiedAt)) == Some(fileDb[dataHash])
    {
      if path in disk {
        if meta.removeFails {
          return W.QueryFailed;
        }
        disk := disk - {path};
        sessions := map j | j in sessions ::
          if sessions[j].path == path then sessions[j].(linked := false) else sessions[j];
      }
      var serverFile := NewSession(path, dataHash, meta.mediaPrefix, size, 0, meta.createdAt, meta.modifiedAt);
      var text := RecordText(serverFile);
      if text == None {
        return W.QueryFailed;
      }
      fileDb := fileDb[dataHash := text.value];
      SetActiveFile(clientID, id, serverFile);
      if meta.sawCreated {
        CreateFile(id);
      }
      reply := Report(env, Server(disk, fileDb, activeFiles, sessions), path);
    }

    /** Second branch: a file in transit or complete. */
    method ContinueFile(id: nat, clientID: string, path: string, dataHash: string, size: nat, meta: QueryMeta)
      returns (reply: W.QueryResult)
      requires dataHash in fileDb
      modifies `activeFiles, `fileDb, `sessions
      ensures (View(), reply) == QueryHit(env, old(View()), id, clientID, path, dataHash, size, meta)
      ensures reply.Reply? && reply.dataHash != dataHash ==>
                Current(clientID, id) && Continued(sessions[id], path, dataHash, size, meta)
    {
      var currentFile := new SF.File(SF.Record("", "", 0, 0, SF.ZERO_TIME, SF.ZERO_TIME));
      var decoded := currentFile.UnmarshalText(env.fmt, fileDb[dataHash]);
      if !decoded {
        fileDb := fileDb - {dataHash};
        return W.QueryFailed;
      }
      var fileSize, modifiedTime := 0, SF.EPOCH;
      if path in disk {
        fileSize, modifiedTime := |disk[path]|, meta.diskTime;
      }
      var serverFile := NewSession(path, dataHash, meta.mediaPrefix, size, fileSize, meta.clientTime, modifiedTime);
      reply := Report(env, Server(disk, fileDb, activeFiles, sessions), path);
      if reply.dataHash != dataHash {
        SetActiveFile(clientID, id, serverFile);
      }
    }

    method SetActiveFile(clientID: string, id: nat, file: Session)
      modifies `activeFiles, `sessions
      ensures View() == SetActive(old(View()), clientID, id, file)
    {
      activeFiles := activeFiles[clientID := id];
      sessions := sessions[id := file];
    }

    method CreateFile(id: nat)
      requires id in sessions
      modifies `disk, `sessions
      ensures View() == OpenFile(old(View()), id)
    {
      var file := sessions[id];
      if file.path !in disk {
        disk := disk[file.path := []];
      }
      sessions := sessions[id := file.(phase := Opened, linked := true)];
    }

    /** The chunk may be taken: the pipe is free, and a listening session gets its content's own bytes where they belong. */
    ghost predicate Accepts(clientID: string, chunk: Chunk)
      requires Valid()
      reads this
    {
      clientID in activeFiles ==>
        var f := sessions[activeFiles[clientID]];
        && (f.pipeOpen ==> f.pipe == [])
        && (Heard(f) ==> Segment(env.content[f.path], chunk.offset, chunk.data) && Aligned(View(), f, chunk.offset))
    }

    /** The offset of a chunk counts once per session; its bytes go to the pipe while that is open. */
    method TransferFunction(clientID: string, fileBytes: Bytes, currentOffset: nat) returns (failed: bool)
      requires Valid() && Accepts(clientID, Chunk(currentOffset, fileBytes))
      modifies `sessions
      ensures Valid() && View() == Transfer(old(View()), clientID, Chunk(currentOffset, fileBytes))
      ensures failed <==> clientID !in activeFiles
    {
      if clientID !in activeFiles {
        return true;
      }
      var id := activeFiles[clientID];
      var file := sessions[id];
      ghost var (before, f) := (View(), file);
      if !file.once {
        file := file.(once := true, currentSize := currentOffset);
        if file.phase == Waiting {
          file := file.(phase := Signalled);
        }
      }
      if file.pipeOpen {
        file := file.(pipe := file.pipe + fileBytes);
      }
      sessions := sessions[id := file];
      failed := false;
      FeedSecure(env, before, id, Chunk(currentOffset, fileBytes), queries);
    }

    /** What the writer has not read is dropped; what it has read stays, is still to be written, and stays right. */
    method CloseActive(clientID: string)
      requires Valid()
      modifies `sessions
      ensures Valid() && View() == Close(old(View()), clientID)
      ensures clientID in activeFiles ==>
                var id := activeFiles[clientID];
                && id in sessions && SparesRead(old(sessions[id]), sessions[id])
                && forall j :: j in old(sessions) && j != id ==> j in sessions && sessions[j] == old(sessions[j])
    {
      if clientID in activeFiles {
        var id := activeFiles[clientID];
        ghost var before := View();
        CloseWriteEnd(id);
        CloseSecure(env, before, id, queries);
      }
    }

    method CloseWriteEnd(id: nat)
      requires id in sessions
      modifies `sessions
      ensures View() == PutSession(old(View()), id, ClosePipe(old(sessions[id])))
      ensures id in sessions && SparesRead(old(sessions[id]), sessions[id])
    {
      sessions := sessions[id := sessions[id].(pipeOpen := false, pipe := [])];
    }

    // ----- the writer thread of a session, one atomic piece after the other -----

    /** Opening creates an absent file and truncates no other: every file has the bytes it had. */
    method OpenSession(id: nat)
      requires Valid() && id in sessions && sessions[id].phase == Created
      modifies `disk, `sessions
      ensures Valid() && View() == OpenFile(old(View()), id)
      ensures forall p :: FileOnDisk(View(), p) == FileOnDisk(old(View()), p)
    {
      ghost var before := View();
      CreateFile(id);
      OpenSecure(env, before, id, queries);
    }

    /** The writer waits for the first chunk; a signal that came earlier is not remembered. */
    method WaitSession(id: nat)
      requires Valid() && id in sessions && sessions[id].phase == Opened
      modifies `sessions
      ensures Valid() && View() == PutSession(old(View()), id, old(sessions[id]).(phase := Waiting))
    {
      ghost var before := View();
      sessions := sessions[id := sessions[id].(phase := Waiting)];
      WriterSecure(env, before, id, sessions[id], queries);
    }

    /** Seek to the offset the first chunk gave: the handle is never beyond the file, if there is anything to write. */
    method SeekSession(id: nat)
      requires Valid() && id in sessions && sessions[id].phase == Signalled
      modifies `sessions
      ensures Valid() && View() == PutSession(old(View()), id, Sought(old(sessions[id])))
      ensures var f := sessions[id]; f.linked && !Dry(f) ==> f.position <= |FileOnDisk(View(), f.path)|
    {
      ghost var before := View();
      sessions := sessions[id := sessions[id].(phase := Writing, position := sessions[id].currentSize)];
      WriterSecure(env, before, id, sessions[id], queries);
      SecureFits(env, View(), id, queries);
    }

    /** Read k bytes from the pipe into the empty copy buffer: they are the next bytes of the content. */
    method ReadSession(id: nat, k: nat)
      requires Valid() && id in sessions && sessions[id].phase == Writing && sessions[id].buffer == []
      requires k <= |sessions[id].pipe|
      modifies `sessions
      ensures Valid() && View() == PutSession(old(View()), id, Taken(old(sessions[id]), k))
      ensures var f := sessions[id];
              f.linked && !Dry(f) ==> Segment(env.content[f.path], f.position, f.buffer + f.pipe)
    {
      ghost var before := View();
      var file := sessions[id];
      sessions := sessions[id := file.(buffer := file.pipe[..k], pipe := file.pipe[k..])];
      WriterSecure(env, before, id, sessions[id], queries);
      SecureFits(env, View(), id, queries);
    }

    /** Write k buffered bytes through the handle: the file of the path grows inside the content, no other one changes. */
    method WriteSession(id: nat, k: nat)
      requires Valid() && id in sessions && sessions[id].phase == Writing && k <= |sessions[id].buffer|
      modifies `disk, `sessions
      ensures Valid() && View() == Flush(old(View()), id, k)
      ensures var p := sessions[id].path; FileOnDisk(old(View()), p) <= FileOnDisk(View(), p) <= env.content[p]
      ensures forall q :: q != sessions[id].path ==> FileOnDisk(View(), q) == FileOnDisk(old(View()), q)
    {
      ghost var before := View();
      WriteOut(id, k);
      FlushSecure(env, before, id, k, queries);
    }

    method WriteOut(id: nat, k: nat)
      requires id in sessions && k <= |sessions[id].buffer|
      modifies `disk, `sessions
      ensures View() == Flush(old(View()), id, k)
    {
      var file := sessions[id];
      if file.linked && file.path in disk {
        disk := disk[file.path := WriteAt(disk[file.path], file.position, file.buffer[..k])];
      }
      sessions := sessions[id := file.(position := file.position + k, copied := file.copied + k, buffer := file.buffer[k..])];
    }

    /** The copy is over: count the bytes and store the record. */
    method FinishSession(id: nat)
      requires Valid() && id in sessions && sessions[id].phase == Writing
      modifies `fileDb, `sessions
      ensures Valid() && View() == Finish(env, old(View()), id)
      ensures id in sessions && (sessions[id].phase == Done ==> Stored(old(sessions[id]), fileDb))
    {
      ghost var before := View();
      StoreRecord(id);
      FinishSecure(env, before, id, queries);
    }

    method StoreRecord(id: nat)
      requires id in sessions
      modifies `fileDb, `sessions
      ensures View() == Finish(env, old(View()), id)
      ensures id in sessions && (sessions[id].phase == Done ==> Stored(old(sessions[id]), fileDb))
    {
      var file := sessions[id];
      file := file.(currentSize := (file.currentSize + file.copied) % SF.UINT64_LIMIT);
      var text := RecordText(file);
      if text == None {
        sessions := sessions[id := file.(phase := Failed)];
      } else {
        fileDb := fileDb[file.key := text.value];
        sessions := sessions[id := file.(phase := Done)];
      }
    }

    /** The database has the session's record under its key, with the bytes it has copied counted. */
    ghost predicate Stored(f: Session, db: map<string, string>) {
      && f.key in db
      && SF.Encode(env.fmt, SF.Record(f.path, f.mediaPrefix, f.size, (f.currentSize + f.copied) % SF.UINT64_LIMIT,
                                      f.creationTime, f.modifiedTime)) == Some(db[f.key])
    }

    // ----- a whole stream -----

    /** What the client sends fits the session its query primed, whose writer waits for it. */
    ghost predicate Listening(clientID: string, requests: seq<Chunk>)
      requires Valid()
      reads this
    {
      clientID in activeFiles &&
      var f := sessions[activeFiles[clientID]];
      f.phase == Waiting && !f.once && f.pipeOpen && f.linked
      && (requests != [] ==> requests[0].offset <= |FileOnDisk(View(), f.path)| && Fitting(env.content[f.path], requests[0].offset, requests))
    }

    /** A pipe write returns when the writer has read it: the writer seeks if it was just woken, reads and writes it all. */
    method AwaitWriter(id: nat)
      requires Valid() && id in sessions && sessions[id].phase in {Signalled, Writing} && sessions[id].buffer == []
      modifies `disk, `sessions
      ensures Valid() && View() == Consumed(old(View()), id)
    {
      if sessions[id].phase == Signalled {
        SecureFits(env, View(), id, queries);
        SeekSession(id);
      }
      ReadSession(id, |sessions[id].pipe|);
      WriteSession(id, |sessions[id].buffer|);
    }

    /**
     * The receive loop with its deferred close, for a stream that is not disturbed. Without a session the first request
     * ends it. Otherwise every request is taken and written before the next one, until the stream or the writer ends;
     * the file is then what those requests make of it, and stays a prefix of the content.
     */
    method ReceiveStream(clientID: string, requests: seq<Chunk>, signals: seq<Signal>) returns (failed: bool, handled: nat)
      requires Valid() && |signals| == |requests| && (clientID in activeFiles ==> Listening(clientID, requests))
      modifies `sessions, `disk
      ensures Valid() && activeFiles == old(activeFiles) && handled <= |requests|
      ensures clientID !in activeFiles ==> handled == 0 && View() == old(View()) && (failed <==> requests != [])
      ensures clientID in activeFiles ==> LoopEnded(signals, handled) && (failed <==> handled > 0 && signals[handled - 1] == WriteFailed)
      ensures clientID in activeFiles ==>
                activeFiles[clientID] in sessions && !sessions[activeFiles[clientID]].pipeOpen
                && var p := old(sessions[activeFiles[clientID]].path);
                   FileOnDisk(View(), p) == SessionResult(FileOnDisk(old(View()), p), requests[..handled])
    {
      if clientID !in activeFiles {
        return requests != [], 0;
      }
      ghost var (p, file) := (sessions[activeFiles[clientID]].path, FileOnDisk(View(), sessions[activeFiles[clientID]].path));
      failed, handled := false, 0;
      if requests != [] {
        SecureFits(env, View(), activeFiles[clientID], queries);
        failed, handled := ServeRequests(clientID, activeFiles[clientID], requests, signals, p, file, requests[0].offset);
        ResultOf(file, requests, handled);
      }
      CloseActive(clientID);
    }

    /** The loop of the receiver: request after request, until the channels say something or the stream ends. */
    method ServeRequests(clientID: string, id: nat, requests: seq<Chunk>, signals: seq<Signal>,
                         ghost p: string, ghost file: Bytes, ghost at: nat)
      returns (failed: bool, handled: nat)
      requires Valid() && |signals| == |requests| > 0 && p in env.content
      requires InStream(View(), clientID, id, p, file, at, [], false) && at <= |file|
      requires Fitting(env.content[p], at, requests)
      modifies `sessions, `disk
      ensures Valid() && activeFiles == old(activeFiles) && 0 < handled <= |requests|
      ensures LoopEnded(signals, handled) && (failed <==> signals[handled - 1] == WriteFailed)
      ensures InStream(View(), clientID, id, p, file, at, Gathered(requests, handled), true)
    {
      handled := 0;
      var quiet := true;
      while handled < |requests| && quiet
        invariant Valid() && handled <= |requests| && activeFiles == old(activeFiles)
        invariant InStream(View(), clientID, id, p, file, at, Gathered(requests, handled), handled > 0)
        invariant SoFar(signals, handled, quiet)
      {
        NextFits(env.content[p], at, requests, handled);
        ServeRequest(clientID, id, requests[handled], p, file, at, Gathered(requests, handled), handled > 0);
        quiet := signals[handled] == Quiet;
        QuietSoFar(signals, handled);
        handled := handled + 1;
      }
      failed := signals[handled - 1] == WriteFailed;
    }

    /** One request, taken and written. */
    method ServeRequest(clientID: string, id: nat, request: Chunk,
                        ghost p: string, ghost file: Bytes, ghost at: nat, ghost written: Bytes, ghost begun: bool)
      requires Valid() && InStream(View(), clientID, id, p, file, at, written, begun)
      requires p in env.content && Segment(env.content[p], request.offset, request.data)
      requires request.offset == at + |written| && (!begun ==> at <= |file|)
      modifies `disk, `sessions
      ensures Valid() && activeFiles == old(activeFiles)
      ensures InStream(View(), clientID, id, p, file, at, written + request.data, true)
    {
      FitsNext(env, View(), clientID, id, p, file, at, written, begun, request);
      var lost := TransferFunction(clientID, request.data, request.offset);
      AwaitWriter(id);
    }
  }

  // ----- soundness of the operations -----

  /** What the object keeps: every active client has its session, sessions are numbered by queries, every path is safe. */
  ghost predicate Secure(env: Env, a: Server, queries: nat) {
    && Tidy(env, a)
    && (forall client :: client in a.active ==> a.active[client] in a.sessions)
    && (forall id :: id in a.sessions ==> id < queries)
    && (forall p :: p in env.content ==> GoodAt(env, a, p) || UntouchedAt(env, a, p))
  }

  /** A session's path is not untouched, so the session fits its file. */
  lemma SecureFits(env: Env, a: Server, id: nat, queries: nat)
    requires Secure(env, a, queries) && id in a.sessions
    ensures var f := a.sessions[id];
            && ShapeOk(env, a.disk, f) && FileOnDisk(a, f.path) <= env.content[f.path]
            && SessionFits(env.content[f.path], FileOnDisk(a, f.path), f)
  {
    assert ShapeOk(env, a.disk, a.sessions[id]);
    assert !NoSession(a, a.sessions[id].path);
  }

  lemma PutSecure(env: Env, a: Server, id: nat, g: Session, queries: nat)
    requires Secure(env, a, queries) && id in a.sessions && ShapeOk(env, a.disk, g) && g.path == a.sessions[id].path
    requires SessionFits(env.content[g.path], FileOnDisk(a, g.path), g)
    ensures Secure(env, PutSession(a, id, g), queries)
  {
    PutTidy(env, a, id, g);
    forall p | p in env.content ensures GoodAt(env, PutSession(a, id, g), p) || UntouchedAt(env, PutSession(a, id, g), p) {
      PutKept(env, a, id, g, p);
    }
  }

  lemma FeedSecure(env: Env, a: Server, id: nat, chunk: Chunk, queries: nat)
    requires Secure(env, a, queries) && id in a.sessions
    requires var f := a.sessions[id];
             && (f.pipeOpen ==> f.pipe == [])
             && (Heard(f) && f.path in env.content ==>
                   Segment(env.content[f.path], chunk.offset, chunk.data) && Aligned(a, f, chunk.offset))
    ensures Secure(env, PutSession(a, id, Feed(a.sessions[id], chunk)), queries)
  {
    var f := a.sessions[id];
    SecureFits(env, a, id, queries);
    FeedShape(env, a.disk, f, chunk);
    FeedFits(env, a, env.content[f.path], f, chunk);
    PutSecure(env, a, id, Feed(f, chunk), queries);
  }

  lemma CloseSecure(env: Env, a: Server, id: nat, queries: nat)
    requires Secure(env, a, queries) && id in a.sessions
    ensures Secure(env, PutSession(a, id, ClosePipe(a.sessions[id])), queries)
  {
    var f := a.sessions[id];
    SecureFits(env, a, id, queries);
    CloseFits(env.content[f.path], FileOnDisk(a, f.path), f);
    PutSecure(env, a, id, ClosePipe(f), queries);
  }

  /** The steps of a writer that touch neither disk nor database. */
  lemma WriterSecure(env: Env, a: Server, id: nat, g: Session, queries: nat)
    requires Secure(env, a, queries) && id in a.sessions
    requires var f := a.sessions[id];
             || (f.phase == Opened && g == f.(phase := Waiting))
             || (f.phase == Signalled && g == Sought(f))
             || (f.phase == Writing && f.buffer == [] && |g.buffer| <= |f.pipe| && g == Taken(f, |g.buffer|))
    ensures Secure(env, PutSession(a, id, g), queries)
  {
    var f := a.sessions[id];
    SecureFits(env, a, id, queries);
    if f.phase == Signalled {
      SoughtFits(env, a.disk, env.content[f.path], FileOnDisk(a, f.path), f);
    } else if f.phase == Writing {
      TakenFits(env.content[f.path], FileOnDisk(a, f.path), f, |g.buffer|);
    }
    PutSecure(env, a, id, g, queries);
  }

  lemma OpenSecure(env: Env, a: Server, id: nat, queries: nat)
    requires Secure(env, a, queries) && id in a.sessions && a.sessions[id].phase == Created
    ensures Secure(env, OpenFile(a, id), queries)
  {
    OpenTidy(env, a, id);
    forall p | p in env.content ensures GoodAt(env, OpenFile(a, id), p) || UntouchedAt(env, OpenFile(a, id), p) {
      OpenKept(env, a, id, p);
    }
  }

  lemma MissSecure(env: Env, a: Server, id: nat, client: string, path: string, meta: QueryMeta)
    requires HashOk(env) && Secure(env, a, id) && path in env.content
    ensures var b := QueryMiss(env, a, id, client, path, env.hash(env.content[path]), |env.content[path]|, meta).0;
            && Secure(env, b, id + 1)
            && forall j :: j in a.sessions ==> j in b.sessions && b.sessions[j].(linked := true) == a.sessions[j].(linked := true)
  {
    var b := QueryMiss(env, a, id, client, path, env.hash(env.content[path]), |env.content[path]|, meta).0;
    MissTidy(env, a, id, client, path, |env.content[path]|, meta);
    MissIds(env, a, id, client, path, env.hash(env.content[path]), |env.content[path]|, meta);
    forall p | p in env.content ensures GoodAt(env, b, p) || UntouchedAt(env, b, p) {
      MissKept(env, a, id, client, path, |env.content[path]|, meta, p);
    }
    MissLeavesAll(env, a, id, client, path, meta);
  }

  lemma MissLeavesAll(env: Env, a: Server, id: nat, client: string, path: string, meta: QueryMeta)
    requires path in env.content && id !in a.sessions
    ensures var b := QueryMiss(env, a, id, client, path, env.hash(env.content[path]), |env.content[path]|, meta).0;
            forall j :: j in a.sessions ==> j in b.sessions && b.sessions[j].(linked := true) == a.sessions[j].(linked := true)
  {
    var b := QueryMiss(env, a, id, client, path, env.hash(env.content[path]), |env.content[path]|, meta).0;
    forall j | j in a.sessions ensures j in b.sessions && b.sessions[j].(linked := true) == a.sessions[j].(linked := true) {
      RemoveLeaves(a, path, j);
    }
  }

  lemma HitSecure(env: Env, a: Server, id: nat, client: string, path: string, meta: QueryMeta)
    requires HashOk(env) && Secure(env, a, id) && path in env.content && Known(env, a, path)
    ensures var b := QueryHit(env, a, id, client, path, env.hash(env.content[path]), |env.content[path]|, meta).0;
            Secure(env, b, id + 1) && forall j :: j in a.sessions ==> j in b.sessions && b.sessions[j] == a.sessions[j]
  {
    var b := QueryHit(env, a, id, client, path, env.hash(env.content[path]), |env.content[path]|, meta).0;
    HitTidy(env, a, id, client, path, |env.content[path]|, meta);
    HitIds(env, a, id, client, path, env.hash(env.content[path]), |env.content[path]|, meta);
    forall p | p in env.content ensures GoodAt(env, b, p) || UntouchedAt(env, b, p) {
      HitKept(env, a, id, client, path, |env.content[path]|, meta, p);
    }
    HitLeavesAll(env, a, id, client, path, meta);
  }

  lemma HitLeavesAll(env: Env, a: Server, id: nat, client: string, path: string, meta: QueryMeta)
    requires path in env.content && id !in a.sessions && Known(env, a, path)
    ensures var b := QueryHit(env, a, id, client, path, env.hash(env.content[path]), |env.content[path]|, meta).0;
            forall j :: j in a.sessions ==> j in b.sessions && b.sessions[j] == a.sessions[j]
  {
  }

  lemma FlushSecure(env: Env, a: Server, id: nat, k: nat, queries: nat)
    requires Secure(env, a, queries) && id in a.sessions && a.sessions[id].phase == Writing
    requires k <= |a.sessions[id].buffer|
    ensures Secure(env, Flush(a, id, k), queries)
    ensures var (b, q) := (Flush(a, id, k), a.sessions[id].path);
            && id in b.sessions && b.sessions[id].path == q && q in env.content
            && FileOnDisk(a, q) <= FileOnDisk(b, q) <= env.content[q]
            && forall p :: p != q ==> FileOnDisk(b, p) == FileOnDisk(a, p)
  {
    var b := Flush(a, id, k);
    SecureFits(env, a, id, queries);
    FlushTidy(env, a, id, k);
    FlushParts(a, id, k);
    FlushGood(env, a, id, k);
    forall p | p in env.content ensures GoodAt(env, b, p) || UntouchedAt(env, b, p) {
      FlushKept(env, a, id, k, p);
    }
  }

  lemma FinishSecure(env: Env, a: Server, id: nat, queries: nat)
    requires HashOk(env) && Secure(env, a, queries) && id in a.sessions && a.sessions[id].phase == Writing
    ensures Secure(env, Finish(env, a, id), queries)
  {
    FinishTidy(env, a, id);
    FinishIds(env, a, id);
    forall p | p in env.content ensures GoodAt(env, Finish(env, a, id), p) || UntouchedAt(env, Finish(env, a, id), p) {
      FinishKept(env, a, id, p);
    }
  }

  // ----- a stream request by request -----

  /** Requests that carry the content's own bytes from `at` on, one behind the other. */
  predicate Fitting(c: Bytes, at: nat, requests: seq<Chunk>)
    decreases |requests|
  {
    requests == [] || (requests[0].offset == at && Segment(c, at, requests[0].data)
                       && Fitting(c, at + |requests[0].data|, requests[1..]))
  }

  /** The writer has taken and written all that is in the pipe. */
  function Consumed(a: Server, id: nat): Server
    requires id in a.sessions && a.sessions[id].buffer == []
  {
    var f := a.sessions[id];
    var b := if f.phase == Signalled then PutSession(a, id, Sought(f)) else a;
    var c := PutSession(b, id, Taken(b.sessions[id], |f.pipe|));
    Flush(c, id, |c.sessions[id].buffer|)
  }

  lemma ConsumedParts(a: Server, id: nat)
    requires id in a.sessions && a.sessions[id].phase in {Signalled, Writing} && a.sessions[id].buffer == []
    requires a.sessions[id].linked && a.sessions[id].path in a.disk
    ensures var (f, b) := (a.sessions[id], Consumed(a, id));
            var at := if f.phase == Signalled then f.currentSize else f.position;
            && id in b.sessions && b.active == a.active && f.path in b.disk
            && b.disk[f.path] == WriteAt(a.disk[f.path], at, f.pipe)
            && var g := b.sessions[id];
               && g.phase == Writing && g.position == at + |f.pipe| && g.pipe == [] && g.buffer == []
               && g.linked && g.pipeOpen == f.pipeOpen && g.once == f.once && g.path == f.path
  {
    var f := a.sessions[id];
    assert f.pipe[..|f.pipe|] == f.pipe && f.pipe[|f.pipe|..] == [];
  }

  /** The requests so far have been taken, and their bytes `written` over the old file from `at` on. */
  ghost predicate InStream(a: Server, client: string, id: nat, p: string, file: Bytes, at: nat, written: Bytes, begun: bool) {
    && client in a.active && a.active[client] == id && id in a.sessions && p in a.disk
    && a.disk[p] == WriteAt(file, at, written) && (!begun ==> written == [])
    && var f := a.sessions[id];
       && f.path == p && f.pipeOpen && f.linked && f.pipe == [] && f.buffer == []
       && if begun then f.phase == Writing && f.once && f.position == at + |written| else f.phase == Waiting && !f.once
  }

  /** The bytes of the first k requests. */
  function Gathered(requests: seq<Chunk>, k: nat): Bytes
    requires k <= |requests|
  {
    if k == 0 then [] else Gathered(requests, k - 1) + requests[k - 1].data
  }

  lemma {:induction false} GatheredIsPayload(requests: seq<Chunk>, k: nat)
    requires k <= |requests|
    ensures Gathered(requests, k) == Payload(requests[..k])
  {
    if k > 0 {
      GatheredIsPayload(requests, k - 1);
      PayloadAppend(requests[..k - 1], requests[k - 1]);
      assert requests[..k] == requests[..k - 1] + [requests[k - 1]];
    }
  }

  lemma {:induction false} FittingAt(c: Bytes, at: nat, requests: seq<Chunk>, k: nat)
    requires Fitting(c, at, requests) && k < |requests|
    ensures requests[k].offset == at + |Payload(requests[..k])| && Segment(c, requests[k].offset, requests[k].data)
    decreases k
  {
    if k > 0 {
      FittingAt(c, at + |requests[0].data|, requests[1..], k - 1);
      assert requests[..k][1..] == requests[1..][..k - 1];
    }
  }

  lemma NextFits(c: Bytes, at: nat, requests: seq<Chunk>, k: nat)
    requires Fitting(c, at, requests) && k < |requests|
    ensures requests[k].offset == at + |Gathered(requests, k)| && Segment(c, requests[k].offset, requests[k].data)
  {
    FittingAt(c, at, requests, k);
    GatheredIsPayload(requests, k);
  }

  lemma ResultOf(file: Bytes, requests: seq<Chunk>, k: nat)
    requires 0 < k <= |requests|
    ensures SessionResult(file, requests[..k]) == WriteAt(file, requests[0].offset, Gathered(requests, k))
  {
    GatheredIsPayload(requests, k);
    AppendIsOneWrite(file, requests[0].offset, requests[..k]);
  }

  /** The next request is accepted, and when it has been taken and written its bytes are added. */
  lemma FitsNext(env: Env, a: Server, client: string, id: nat, p: string, file: Bytes, at: nat, written: Bytes, begun: bool,
                 chunk: Chunk)
    requires InStream(a, client, id, p, file, at, written, begun) && chunk.offset == at + |written|
    requires !begun ==> at <= |file|
    ensures Aligned(a, a.sessions[id], chunk.offset)
    ensures var b := Transfer(a, client, chunk);
            && id in b.sessions && b.sessions[id].phase in {Signalled, Writing} && b.sessions[id].buffer == []
            && InStream(Consumed(b, id), client, id, p, file, at, written + chunk.data, true)
  {
    ServedNext(a, client, id, p, chunk, at + |written|, !begun);
    WriteAtTwice(file, at, written, chunk.data);
  }

  lemma ServedNext(a: Server, client: string, id: nat, p: string, chunk: Chunk, at: nat, first: bool)
    requires client in a.active && a.active[client] == id && id in a.sessions && p in a.disk && chunk.offset == at
    requires var f := a.sessions[id];
             && f.path == p && f.pipeOpen && f.linked && f.pipe == [] && f.buffer == []
             && if first then f.phase == Waiting && !f.once else f.phase == Writing && f.once && f.position == at
    ensures var b := Transfer(a, client, chunk);
            && id in b.sessions && b.sessions[id].phase in {Signalled, Writing} && b.sessions[id].buffer == []
            && var c := Consumed(b, id);
               && client in c.active && c.active[client] == id && id in c.sessions && p in c.disk
               && c.disk[p] == WriteAt(a.disk[p], at, chunk.data)
               && var g := c.sessions[id];
                  && g.path == p && g.pipeOpen && g.linked && g.pipe == [] && g.buffer == []
                  && g.phase == Writing && g.once && g.position == at + |chunk.data|
  {
    var b := Transfer(a, client, chunk);
    FedStream(a.sessions[id], chunk, first);
    assert b.sessions[id] == Feed(a.sessions[id], chunk) && b.disk == a.disk && b.active == a.active;
    ConsumedParts(b, id);
  }

  lemma FedStream(f: Session, chunk: Chunk, first: bool)
    requires f.pipeOpen && f.pipe == [] && f.buffer == []
    requires if first then f.phase == Waiting && !f.once else f.phase == Writing && f.once
    ensures var g := Feed(f, chunk);
            && g.pipe == chunk.data && g.buffer == [] && g.pipeOpen && g.once && g.path == f.path && g.linked == f.linked
            && g.position == f.position && (if first then g.phase == Signalled && g.currentSize == chunk.offset else g.phase == Writing)
  {
    assert [] + chunk.data == chunk.data;
  }

  /** A query is its two steps of the protocol, one right after the other. */
  lemma QueryIsItsSteps(env: Env, s: System, client: string, path: string, meta: QueryMeta)
    requires path in env.content
    ensures var (c, a) := (env.content[path], NewAttempt(client, path, meta.mediaPrefix));
            var (server, reply) := Query(env, s.server, |s.attempts|, client, path, env.hash(c), |c|, meta);
            var asked := Apply(env, s, DoQuery(client, path, meta));
            System(server, s.attempts + [Answer(a, server, reply)]) ==
              if env.hash(c) in s.server.db then asked else Apply(env, asked, DoMiss(|s.attempts|, meta))
  {
    var (c, a) := (env.content[path], NewAttempt(client, path, meta.mediaPrefix));
    var (server, reply) := Query(env, s.server, |s.attempts|, client, path, env.hash(c), |c|, meta);
    AppendThenUpdate(s.attempts, a, Answer(a, server, reply));
  }
}
