/**
 * The prefix invariant, path by path. For one path of one content: what its file may hold, what the sessions on it may
 * write, and what every operation of the server keeps of that, whatever happens on other paths.
 */
module ProtocolSafety {
  import opened Wrappers
  import opened FileBytes
  import opened Protocol
  import opened ProtocolShape
  import SF = ServerFile

  // ----- the invariant of a path -----

  ghost predicate Known(env: Env, server: Server, path: string)
    requires path in env.content
  {
    env.hash(env.content[path]) in server.db
  }

  /** No other path carries the same content. */
  ghost predicate Unique(env: Env, path: string)
    requires path in env.content
  {
    forall q :: q in env.content && q != path ==> env.content[q] != env.content[path]
  }

  ghost predicate NoSession(server: Server, path: string) {
    forall id :: id in server.sessions ==> server.sessions[id].path != path
  }

  /**
   * The safety property: under the path lies a prefix of its content, unless it is an older file that no query has
   * reached, its new content unknown to the database.
   */
  ghost predicate SafeAt(env: Env, server: Server, path: string)
    requires path in env.content
  {
    FileOnDisk(server, path) <= env.content[path] || (!Known(env, server, path) && NoSession(server, path))
  }

  /** A session whose pipe was closed before anything was read: it will never write. */
  predicate Dry(f: Session) {
    !f.pipeOpen && f.pipe == [] && f.buffer == [] && f.copied == 0
  }

  /** What a session holds for a named file is what belongs there. */
  predicate SessionFits(c: Bytes, file: Bytes, f: Session) {
    f.linked && !Dry(f) ==>
      && f.position <= |file|
      && (f.phase == Signalled ==> f.currentSize <= |file| && Segment(c, f.currentSize, f.pipe))
      && (f.phase == Writing ==> Segment(c, f.position, f.buffer + f.pipe))
  }

  ghost predicate SessionsFit(env: Env, server: Server, path: string)
    requires path in env.content
  {
    forall id :: id in server.sessions && server.sessions[id].path == path ==>
      SessionFits(env.content[path], FileOnDisk(server, path), server.sessions[id])
  }

  /** A prefix of the content, and sessions that continue it. */
  ghost predicate GoodAt(env: Env, server: Server, path: string)
    requires path in env.content
  {
    FileOnDisk(server, path) <= env.content[path] && SessionsFit(env, server, path)
  }

  /** An older file that the first query of its new content will remove. */
  ghost predicate UntouchedAt(env: Env, server: Server, path: string)
    requires path in env.content
  {
    !Known(env, server, path) && Unique(env, path) && NoSession(server, path)
  }

  /** A file longer than the content: no stream can shorten it. */
  ghost predicate LongAt(env: Env, server: Server, path: string)
    requires path in env.content
  {
    |FileOnDisk(server, path)| > |env.content[path]|
  }

  /** What every operation does to a path: a good one stays good, another one stays as it is or becomes good. */
  ghost predicate Kept(env: Env, a: Server, b: Server, path: string)
    requires path in env.content
  {
    && (GoodAt(env, a, path) ==> GoodAt(env, b, path))
    && (UntouchedAt(env, a, path) ==> UntouchedAt(env, b, path) || GoodAt(env, b, path))
    && (LongAt(env, a, path) ==> LongAt(env, b, path) || GoodAt(env, b, path))
  }

  lemma KeptTwice(env: Env, a: Server, b: Server, c: Server, path: string)
    requires path in env.content && Kept(env, a, b, path) && Kept(env, b, c, path)
    ensures Kept(env, a, c, path)
  {
  }

  // ----- operations on one session -----

  lemma PutKept(env: Env, a: Server, id: nat, g: Session, path: string)
    requires path in env.content && id in a.sessions && g.path == a.sessions[id].path
    requires GoodAt(env, a, path) && g.path == path ==> SessionFits(env.content[path], FileOnDisk(a, path), g)
    ensures Kept(env, a, PutSession(a, id, g), path)
  {
  }

  /** A new session in place of none, at its start: it fits everywhere. */
  lemma ActivateKept(env: Env, a: Server, client: string, id: nat, g: Session, path: string)
    requires path in env.content && g.position == 0 && g.phase == Created && (g.path == path ==> Known(env, a, path))
    ensures Kept(env, a, SetActive(a, client, id, g), path)
  {
  }

  /** The pipe is closed and empty; what the writer has read, where it stands and what it has counted are as before. */
  predicate SparesRead(f: Session, g: Session) {
    !g.pipeOpen && g.pipe == [] && g.buffer == f.buffer && g.position == f.position && g.copied == f.copied
    && g.currentSize == f.currentSize && g.phase == f.phase && g.linked == f.linked && g.path == f.path
  }

  /** A close empties the pipe; what the writer has read, where it stands and what it has counted stay. */
  lemma CloseFits(c: Bytes, file: Bytes, f: Session)
    requires SessionFits(c, file, f)
    ensures SessionFits(c, file, ClosePipe(f))
    ensures SparesRead(f, ClosePipe(f))
  {
    if f.linked && !Dry(f) && f.phase == Writing {
      SegmentTail(c, f.position, f.buffer + f.pipe, |f.buffer|);
      assert (f.buffer + f.pipe)[..|f.buffer|] == f.buffer == f.buffer + [];
    }
  }

  lemma SoughtFits(env: Env, disk: map<string, Bytes>, c: Bytes, file: Bytes, f: Session)
    requires SessionFits(c, file, f) && ShapeOk(env, disk, f) && f.phase == Signalled
    ensures SessionFits(c, file, Sought(f))
  {
    assert f.buffer + f.pipe == f.pipe;
  }

  lemma TakenFits(c: Bytes, file: Bytes, f: Session, k: nat)
    requires SessionFits(c, file, f) && f.phase == Writing && f.buffer == [] && k <= |f.pipe|
    ensures SessionFits(c, file, Taken(f, k))
  {
    assert f.pipe[..k] + f.pipe[k..] == f.pipe == f.buffer + f.pipe;
  }

  /** An aligned chunk that carries the content's own bytes leaves a fitting session; so does any chunk to a deaf one. */
  lemma FeedFits(env: Env, server: Server, c: Bytes, f: Session, chunk: Chunk)
    requires SessionFits(c, FileOnDisk(server, f.path), f) && ShapeOk(env, server.disk, f)
    requires f.pipeOpen ==> f.pipe == []
    requires Heard(f) ==> Segment(c, chunk.offset, chunk.data) && Aligned(server, f, chunk.offset)
    ensures SessionFits(c, FileOnDisk(server, f.path), Feed(f, chunk))
  {
    if Heard(f) {
      if f.phase == Writing {
        FeedWriting(c, f, chunk);
      } else {
        assert f.pipe + chunk.data == chunk.data;
      }
    }
  }

  lemma FeedWriting(c: Bytes, f: Session, chunk: Chunk)
    requires f.phase == Writing && f.once && f.pipeOpen && f.pipe == [] && chunk.offset == AppendPosition(f)
    requires Segment(c, f.position, f.buffer + f.pipe) && Segment(c, chunk.offset, chunk.data)
    ensures Segment(c, f.position, f.buffer + Feed(f, chunk).pipe)
  {
    assert f.buffer + f.pipe == f.buffer;
    SegmentConcat(c, f.position, f.buffer, chunk.data);
    assert Feed(f, chunk).pipe == chunk.data;
  }

  // ----- operations on files -----

  lemma RemoveKept(env: Env, a: Server, q: string, path: string)
    requires path in env.content && Tidy(env, a)
    ensures Kept(env, a, RemoveFile(a, q), path)
    ensures path == q ==> GoodAt(env, RemoveFile(a, q), path)
  {
    var b := RemoveFile(a, q);
    assert FileOnDisk(b, path) == if path == q then [] else FileOnDisk(a, path);
  }

  lemma OpenKept(env: Env, a: Server, id: nat, path: string)
    requires path in env.content && Tidy(env, a) && id in a.sessions && a.sessions[id].phase == Created
    ensures Kept(env, a, OpenFile(a, id), path)
    ensures FileOnDisk(OpenFile(a, id), path) == FileOnDisk(a, path)
  {
    assert ShapeOk(env, a.disk, a.sessions[id]);
  }

  lemma FitsLonger(c: Bytes, file: Bytes, more: Bytes, f: Session)
    requires SessionFits(c, file, f) && |file| <= |more|
    ensures SessionFits(c, more, f)
  {
  }

  lemma FlushParts(server: Server, id: nat, k: nat)
    requires id in server.sessions && k <= |server.sessions[id].buffer|
    ensures var (f, b) := (server.sessions[id], Flush(server, id, k));
            && b.sessions == server.sessions[id := f.(position := f.position + k, copied := f.copied + k, buffer := f.buffer[k..])]
            && b.db == server.db && b.active == server.active
            && (forall q :: q != f.path ==> FileOnDisk(b, q) == FileOnDisk(server, q))
            && FileOnDisk(b, f.path) == if f.linked && f.path in server.disk
                                        then WriteAt(FileOnDisk(server, f.path), f.position, f.buffer[..k])
                                        else FileOnDisk(server, f.path)
  {
  }

  /** One write of a fitting session: the file stays a prefix, is never shortened, and the session still fits. */
  lemma FlushedFile(c: Bytes, file: Bytes, f: Session, k: nat)
    requires SessionFits(c, file, f) && f.linked && f.phase == Writing && k <= |f.buffer| && file <= c
    ensures var next := WriteAt(file, f.position, f.buffer[..k]);
            && file <= next <= c
            && SessionFits(c, next, f.(position := f.position + k, copied := f.copied + k, buffer := f.buffer[k..]))
  {
    if !Dry(f) {
      FlushedBytes(c, file, f, k);
    }
  }

  lemma FlushedBytes(c: Bytes, file: Bytes, f: Session, k: nat)
    requires f.position <= |file| && Segment(c, f.position, f.buffer + f.pipe) && k <= |f.buffer| && file <= c
    ensures file <= WriteAt(file, f.position, f.buffer[..k]) <= c
    ensures f.position + k <= |WriteAt(file, f.position, f.buffer[..k])|
    ensures Segment(c, f.position + k, f.buffer[k..] + f.pipe)
  {
    SegmentFlush(c, f.position, f.buffer, f.pipe, k);
    WriteKeepsPrefix(file, c, f.position, k);
  }

  lemma FlushGood(env: Env, a: Server, id: nat, k: nat)
    requires Tidy(env, a) && id in a.sessions && a.sessions[id].phase == Writing && k <= |a.sessions[id].buffer|
    requires a.sessions[id].path in env.content && GoodAt(env, a, a.sessions[id].path)
    ensures GoodAt(env, Flush(a, id, k), a.sessions[id].path)
    ensures FileOnDisk(a, a.sessions[id].path) <= FileOnDisk(Flush(a, id, k), a.sessions[id].path)
  {
    var (f, b) := (a.sessions[id], Flush(a, id, k));
    var (p, file) := (f.path, FileOnDisk(a, f.path));
    FlushParts(a, id, k);
    assert ShapeOk(env, a.disk, f);
    if f.linked {
      FlushedFile(env.content[p], file, f, k);
    }
    GrownFits(env, a, b, id, p);
  }

  /** A file that grew under one session: the others on it fit as before. */
  lemma GrownFits(env: Env, a: Server, b: Server, id: nat, p: string)
    requires p in env.content && SessionsFit(env, a, p) && id in b.sessions
    requires b.sessions == a.sessions[id := b.sessions[id]]
    requires |FileOnDisk(a, p)| <= |FileOnDisk(b, p)|
    requires b.sessions[id].path == p ==> SessionFits(env.content[p], FileOnDisk(b, p), b.sessions[id])
    ensures SessionsFit(env, b, p)
  {
    forall j | j in b.sessions && b.sessions[j].path == p ensures SessionFits(env.content[p], FileOnDisk(b, p), b.sessions[j]) {
      if j != id {
        FitsLonger(env.content[p], FileOnDisk(a, p), FileOnDisk(b, p), a.sessions[j]);
      }
    }
  }

  lemma FlushKept(env: Env, a: Server, id: nat, k: nat, path: string)
    requires path in env.content && Tidy(env, a) && id in a.sessions && a.sessions[id].phase == Writing
    requires k <= |a.sessions[id].buffer|
    ensures Kept(env, a, Flush(a, id, k), path)
  {
    FlushParts(a, id, k);
    if a.sessions[id].path == path && GoodAt(env, a, path) {
      FlushGood(env, a, id, k);
    }
  }

  // ----- operations on the database -----

  /** A stored record of another content leaves a path untouched. */
  lemma StoreKept(env: Env, a: Server, q: string, text: string, path: string)
    requires HashOk(env) && path in env.content && q in env.content && (q == path ==> GoodAt(env, a, path))
    ensures Kept(env, a, a.(db := a.db[env.hash(env.content[q]) := text]), path)
  {
    var b := a.(db := a.db[env.hash(env.content[q]) := text]);
    if UntouchedAt(env, a, path) && q != path {
      if env.hash(env.content[q]) == env.hash(env.content[path]) {
        PrefixHash(env, q, env.content[q], path);
      }
      assert UntouchedAt(env, b, path);
    }
  }

  lemma ForgetKept(env: Env, a: Server, key: string, path: string)
    requires path in env.content
    ensures Kept(env, a, a.(db := a.db - {key}), path)
  {
  }

  lemma FinishKept(env: Env, a: Server, id: nat, path: string)
    requires HashOk(env) && path in env.content && Tidy(env, a) && id in a.sessions && a.sessions[id].phase == Writing
    ensures Kept(env, a, Finish(env, a, id), path)
  {
    var f := a.sessions[id];
    assert ShapeOk(env, a.disk, f);
    var text := SF.Encode(env.fmt, RecordOf(Counted(f)));
    if text == None {
      PutKept(env, a, id, Counted(f).(phase := Failed), path);
    } else {
      StoredSession(env, a, id, text.value, path);
      var b := a.(db := a.db[f.key := text.value]);
      PutKept(env, b, id, Counted(f).(phase := Done), path);
      KeptTwice(env, a, b, PutSession(b, id, Counted(f).(phase := Done)), path);
    }
  }

  /** A session's own record: its path is not untouched, so storing it changes nothing for any path. */
  lemma StoredSession(env: Env, a: Server, id: nat, text: string, path: string)
    requires HashOk(env) && path in env.content && Tidy(env, a) && id in a.sessions
    ensures Kept(env, a, a.(db := a.db[a.sessions[id].key := text]), path)
  {
    var f := a.sessions[id];
    assert ShapeOk(env, a.disk, f);
    if f.path == path {
      assert !NoSession(a, path);
    } else {
      StoreKept(env, a, f.path, text, path);
    }
  }

  // ----- queries -----

  lemma HitKept(env: Env, a: Server, id: nat, client: string, q: string, size: nat, meta: QueryMeta, path: string)
    requires path in env.content && q in env.content && Known(env, a, q)
    ensures Kept(env, a, QueryHit(env, a, id, client, q, env.hash(env.content[q]), size, meta).0, path)
  {
    var key := env.hash(env.content[q]);
    if !SF.Decodes(env.fmt, a.db[key]) {
      ForgetKept(env, a, key, path);
    } else {
      var f := NewSession(q, key, meta.mediaPrefix, size, |FileOnDisk(a, q)|, meta.clientTime,
                          if q in a.disk then meta.diskTime else SF.EPOCH);
      ActivateKept(env, a, client, id, f, path);
    }
  }

  /** The store and the session of a miss, once the way is clear. */
  lemma PrimeKept(env: Env, a: Server, id: nat, client: string, f: Session, text: string, opens: bool, path: string)
    requires HashOk(env) && path in env.content && f.path in env.content && f.key == env.hash(env.content[f.path])
    requires Tidy(env, a) && f.position == 0 && f.phase == Created && ShapeOk(env, a.disk, f)
    requires f.path == path ==> GoodAt(env, a, path)
    ensures var primed := SetActive(a.(db := a.db[f.key := text]), client, id, f);
            Kept(env, a, if opens then OpenFile(primed, id) else primed, path)
  {
    var stored := a.(db := a.db[f.key := text]);
    var primed := SetActive(stored, client, id, f);
    StoreKept(env, a, f.path, text, path);
    ActivateKept(env, stored, client, id, f, path);
    KeptTwice(env, a, stored, primed, path);
    if opens {
      assert Tidy(env, stored);
      ActivateTidy(env, stored, client, id, f);
      OpenKept(env, primed, id, path);
      KeptTwice(env, a, primed, OpenFile(primed, id), path);
    }
  }

  lemma AbsentIsGood(env: Env, a: Server, path: string)
    requires path in env.content && Tidy(env, a) && path !in a.disk
    requires GoodAt(env, a, path) || UntouchedAt(env, a, path) || LongAt(env, a, path)
    ensures GoodAt(env, a, path)
  {
    assert FileOnDisk(a, path) == [];
  }

  /** The paths the invariant speaks about. */
  ghost predicate Fine(env: Env, a: Server, path: string)
    requires path in env.content
  {
    GoodAt(env, a, path) || UntouchedAt(env, a, path) || LongAt(env, a, path)
  }

  lemma MissKept(env: Env, a: Server, id: nat, client: string, q: string, size: nat, meta: QueryMeta, path: string)
    requires HashOk(env) && path in env.content && q in env.content && Tidy(env, a) && Fine(env, a, path)
    ensures Kept(env, a, QueryMiss(env, a, id, client, q, env.hash(env.content[q]), size, meta).0, path)
  {
    if !(q in a.disk && meta.removeFails) {
      var cleaned := if q in a.disk then RemoveFile(a, q) else a;
      CleanedKept(env, a, cleaned, q, path);
      var f := NewSession(q, env.hash(env.content[q]), meta.mediaPrefix, size, 0, meta.createdAt, meta.modifiedAt);
      var text := SF.Encode(env.fmt, RecordOf(f));
      if text.Some? {
        NewShape(env, cleaned.disk, q, meta.mediaPrefix, size, 0, meta.createdAt, meta.modifiedAt);
        PrimeKept(env, cleaned, id, client, f, text.value, meta.sawCreated, path);
        var primed := SetActive(cleaned.(db := cleaned.db[f.key := text.value]), client, id, f);
        KeptTwice(env, a, cleaned, if meta.sawCreated then OpenFile(primed, id) else primed, path);
      }
    }
  }

  /** The way of a miss is clear: no file of that name. */
  lemma CleanedKept(env: Env, a: Server, cleaned: Server, q: string, path: string)
    requires path in env.content && Tidy(env, a) && Fine(env, a, path)
    requires cleaned == if q in a.disk then RemoveFile(a, q) else a
    ensures Tidy(env, cleaned) && Kept(env, a, cleaned, path) && (q == path ==> GoodAt(env, cleaned, path))
  {
    if q in a.disk {
      RemoveKept(env, a, q, path);
      RemoveTidy(env, a, q);
    } else if q == path {
      AbsentIsGood(env, a, path);
    }
  }
}
