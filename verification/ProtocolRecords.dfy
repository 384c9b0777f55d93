/** Records over whole runs: they stay decodable, so what is known stays known; and how files grow, survive or vanish. */
module ProtocolRecords {
  import opened Wrappers
  import opened FileBytes
  import opened Protocol
  import opened ProtocolShape
  import opened ProtocolSafety
  import opened ProtocolRuns
  import SF = ServerFile

  // ----- the records of all paths -----

  ghost predicate DbOk(env: Env, server: Server) {
    forall key :: key in server.db ==> SF.Decodes(env.fmt, server.db[key])
  }

  predicate SessionRecordOk(f: Session) {
    && SF.Plain(f.mediaPrefix) && f.creationTime != SF.EPOCH && f.size < INT63_LIMIT
    && f.currentSize < SF.UINT64_LIMIT && f.position < INT63_LIMIT
  }

  predicate AttemptRecordOk(a: Attempt) {
    && (a.phase.Asking? ==> SF.Plain(a.phase.mediaPrefix))
    && (a.reply.Reply? ==> a.reply.remoteSize < INT63_LIMIT)
  }

  ghost predicate DiskBounded(server: Server) {
    forall p :: p in server.disk ==> |server.disk[p]| < INT63_LIMIT
  }

  ghost predicate ServerRecords(env: Env, server: Server) {
    && DbOk(env, server) && DiskBounded(server)
    && forall id :: id in server.sessions ==> SessionRecordOk(server.sessions[id])
  }

  ghost predicate Records(env: Env, s: System) {
    ServerRecords(env, s.server) && forall i :: 0 <= i < |s.attempts| ==> AttemptRecordOk(s.attempts[i])
  }

  lemma PutRecords(env: Env, a: Server, id: nat, g: Session)
    requires ServerRecords(env, a) && SessionRecordOk(g)
    ensures ServerRecords(env, PutSession(a, id, g))
  {
  }

  lemma CountedRecord(env: Env, f: Session)
    requires RecordsFit(env) && SessionRecordOk(f) && f.path in env.content
    ensures SessionRecordOk(Counted(f).(phase := Done)) && SessionRecordOk(Counted(f).(phase := Failed))
    ensures var text := SF.Encode(env.fmt, RecordOf(Counted(f))); text.Some? ==> SF.Decodes(env.fmt, text.value)
  {
    if SF.Encode(env.fmt, RecordOf(Counted(f))).Some? {
      SF.StoredRecordDecodes(env.fmt, RecordOf(Counted(f)));
    }
  }

  lemma StoreText(env: Env, a: Server, key: string, text: string)
    requires ServerRecords(env, a) && SF.Decodes(env.fmt, text)
    ensures ServerRecords(env, a.(db := a.db[key := text])) && a.db.Keys <= a.db[key := text].Keys
  {
  }

  lemma FinishRecords(env: Env, a: Server, id: nat)
    requires RecordsFit(env) && ServerRecords(env, a) && Tidy(env, a) && id in a.sessions
    ensures ServerRecords(env, Finish(env, a, id)) && a.db.Keys <= Finish(env, a, id).db.Keys
  {
    var f := a.sessions[id];
    assert ShapeOk(env, a.disk, f) && SessionRecordOk(f);
    CountedRecord(env, f);
    var text := SF.Encode(env.fmt, RecordOf(Counted(f)));
    if text.Some? {
      StoreText(env, a, f.key, text.value);
      PutRecords(env, a.(db := a.db[f.key := text.value]), id, Counted(f).(phase := Done));
    } else {
      PutRecords(env, a, id, Counted(f).(phase := Failed));
    }
  }

  lemma FlushRecords(env: Env, a: Server, id: nat, k: nat)
    requires ServerRecords(env, a) && id in a.sessions && k <= |a.sessions[id].buffer|
    requires a.sessions[id].position + k < INT63_LIMIT
    ensures ServerRecords(env, Flush(a, id, k)) && Flush(a, id, k).db == a.db
  {
  }

  lemma HitRecords(env: Env, a: Server, id: nat, client: string, q: string, size: nat, meta: QueryMeta)
    requires ServerRecords(env, a) && q in env.content && Known(env, a, q) && size < INT63_LIMIT
    requires SF.Plain(meta.mediaPrefix) && meta.clientTime != SF.EPOCH
    ensures var (b, reply) := QueryHit(env, a, id, client, q, env.hash(env.content[q]), size, meta);
            ServerRecords(env, b) && b.db == a.db && reply.Reply? && reply.remoteSize < INT63_LIMIT
  {
  }

  lemma ActivateRecords(env: Env, a: Server, client: string, id: nat, f: Session)
    requires ServerRecords(env, a) && SessionRecordOk(f)
    ensures ServerRecords(env, SetActive(a, client, id, f))
  {
  }

  lemma OpenRecords(env: Env, a: Server, id: nat)
    requires ServerRecords(env, a) && id in a.sessions
    ensures ServerRecords(env, OpenFile(a, id)) && OpenFile(a, id).db == a.db
  {
  }

  lemma RemoveRecords(env: Env, a: Server, q: string)
    requires ServerRecords(env, a)
    ensures ServerRecords(env, RemoveFile(a, q)) && RemoveFile(a, q).db == a.db
  {
  }

  /** The record and the session of a miss. */
  lemma PrimeRecords(env: Env, a: Server, id: nat, client: string, f: Session, text: string, opens: bool)
    requires RecordsFit(env) && ServerRecords(env, a) && SessionRecordOk(f) && f.path in env.content
    requires SF.Encode(env.fmt, RecordOf(f)) == Some(text)
    ensures var primed := SetActive(a.(db := a.db[f.key := text]), client, id, f);
            var b := if opens then OpenFile(primed, id) else primed;
            ServerRecords(env, b) && a.db.Keys <= b.db.Keys
  {
    SF.StoredRecordDecodes(env.fmt, RecordOf(f));
    var stored := a.(db := a.db[f.key := text]);
    StoreText(env, a, f.key, text);
    ActivateRecords(env, stored, client, id, f);
    OpenRecords(env, SetActive(stored, client, id, f), id);
  }

  lemma ReportBounded(env: Env, a: Server, q: string)
    requires DiskBounded(a)
    ensures Report(env, a, q).remoteSize < INT63_LIMIT
  {
  }

  lemma MissRecords(env: Env, a: Server, id: nat, client: string, q: string, meta: QueryMeta)
    requires RecordsFit(env) && ServerRecords(env, a) && q in env.content
    requires SF.Plain(meta.mediaPrefix) && meta.createdAt != SF.EPOCH
    ensures var (b, reply) := QueryMiss(env, a, id, client, q, env.hash(env.content[q]), |env.content[q]|, meta);
            && ServerRecords(env, b) && a.db.Keys <= b.db.Keys
            && (reply.Reply? ==> reply.remoteSize < INT63_LIMIT)
  {
    if !(q in a.disk && meta.removeFails) {
      var c := env.content[q];
      var cleaned := if q in a.disk then RemoveFile(a, q) else a;
      RemoveRecords(env, a, q);
      var f := NewSession(q, env.hash(c), meta.mediaPrefix, |c|, 0, meta.createdAt, meta.modifiedAt);
      var text := SF.Encode(env.fmt, RecordOf(f));
      if text.Some? {
        PrimeRecords(env, cleaned, id, client, f, text.value, meta.sawCreated);
        var primed := SetActive(cleaned.(db := cleaned.db[f.key := text.value]), client, id, f);
        ReportBounded(env, if meta.sawCreated then OpenFile(primed, id) else primed, q);
      }
    }
  }

  lemma FeedRecord(f: Session, chunk: Chunk)
    requires SessionRecordOk(f) && chunk.offset < SF.UINT64_LIMIT
    ensures SessionRecordOk(Feed(f, chunk))
  {
  }

  lemma ChunkOffset(env: Env, a: Attempt)
    requires RecordsFit(env) && HistoryOk(env, a) && AttemptRecordOk(a) && a.wire != []
    ensures a.wire[0].offset < SF.UINT64_LIMIT
  {
    WireHead(env.content[a.path], a);
  }

  lemma DeliverRecords(env: Env, s: System, i: nat)
    requires RecordsFit(env) && Base(env, s) && Records(env, s) && Enabled(env, s, DoDeliver(i))
    ensures Records(env, Apply(env, s, DoDeliver(i)))
  {
    var a := s.attempts[i];
    assert HistoryOk(env, a) && AttemptRecordOk(a);
    ChunkOffset(env, a);
    TransferRecords(env, s.server, a.client, a.wire[0]);
    assert AttemptRecordOk(Received(a));
  }

  lemma TransferRecords(env: Env, a: Server, client: string, chunk: Chunk)
    requires ServerRecords(env, a) && chunk.offset < SF.UINT64_LIMIT
    ensures ServerRecords(env, Transfer(a, client, chunk))
  {
    if HasSession(a, client) {
      var id := a.active[client];
      FeedRecord(a.sessions[id], chunk);
      PutRecords(env, a, id, Feed(a.sessions[id], chunk));
    }
  }

  lemma QueryRecords(env: Env, s: System, step: Step)
    requires RecordsFit(env) && Base(env, s) && Records(env, s) && Enabled(env, s, step) && Timely(step)
    requires step.DoQuery? || step.DoMiss?
    ensures Records(env, Apply(env, s, step)) && s.server.db.Keys <= Apply(env, s, step).server.db.Keys
  {
    match step
    case DoQuery(client, path, meta) =>
      if Known(env, s.server, path) {
        HitRecords(env, s.server, |s.attempts|, client, path, |env.content[path]|, meta);
      }
    case DoMiss(i, meta) =>
      assert AttemptRecordOk(s.attempts[i]);
      MissRecords(env, s.server, i, s.attempts[i].client, s.attempts[i].path, meta);
  }

  lemma WriterRecords(env: Env, s: System, step: Step)
    requires Records(env, s) && Enabled(env, s, step)
    requires step.DoWait? || step.DoSeek? || step.DoTake? || step.DoFail?
    ensures Records(env, Apply(env, s, step))
  {
    var id := step.id;
    var f := s.server.sessions[id];
    assert SessionRecordOk(f);
    match step
    case DoWait(_) => PutRecords(env, s.server, id, f.(phase := Waiting));
    case DoSeek(_) => PutRecords(env, s.server, id, Sought(f));
    case DoTake(_, k) => PutRecords(env, s.server, id, Taken(f, k));
    case DoFail(_) => PutRecords(env, s.server, id, f.(phase := Failed));
  }

  lemma ClientRecords(env: Env, s: System, step: Step)
    requires Records(env, s) && Enabled(env, s, step) && (step.DoBegin? || step.DoSend? || step.DoCut? || step.DoEnd?)
    ensures Records(env, Apply(env, s, step)) && Apply(env, s, step).server == s.server
  {
    assert AttemptRecordOk(s.attempts[step.attempt]);
  }

  /** Every timely step keeps the records decodable and forgets none. */
  lemma StepKeepsRecords(env: Env, s: System, step: Step)
    requires RecordsFit(env) && Base(env, s) && Records(env, s) && Enabled(env, s, step) && Timely(step)
    ensures Records(env, Apply(env, s, step)) && s.server.db.Keys <= Apply(env, s, step).server.db.Keys
  {
    match step
    case DoQuery(client, path, meta) => QueryRecords(env, s, step);
    case DoMiss(i, meta) => QueryRecords(env, s, step);
    case DoBegin(i, io) => ClientRecords(env, s, step);
    case DoSend(i, n) => ClientRecords(env, s, step);
    case DoDeliver(i) => DeliverRecords(env, s, i);
    case DoCut(i) => ClientRecords(env, s, step);
    case DoEnd(i, copyFails) => ClientRecords(env, s, step);
    case DoClose(client) =>
      if HasSession(s.server, client) {
        PutRecords(env, s.server, s.server.active[client], ClosePipe(s.server.sessions[s.server.active[client]]));
      }
    case DoOpen(id) => OpenRecords(env, s.server, id);
    case DoFlush(id, k) => FlushRecords(env, s.server, id, k);
    case DoFinish(id) => FinishRecords(env, s.server, id);
    case _ => WriterRecords(env, s, step);
  }

  lemma {:induction false} RunKeepsRecords(env: Env, s: System, steps: seq<Step>)
    requires RecordsFit(env) && Base(env, s) && Records(env, s) && Possible(env, s, steps) && TimelyRun(steps)
    ensures Base(env, Run(env, s, steps)) && Records(env, Run(env, s, steps))
    ensures s.server.db.Keys <= Run(env, s, steps).server.db.Keys
    decreases |steps|
  {
    if steps != [] {
      StepKeepsBase(env, s, steps[0]);
      StepKeepsRecords(env, s, steps[0]);
      RunKeepsRecords(env, Apply(env, s, steps[0]), steps[1..]);
    }
  }

  /** A server just started on a database whose records decode, and files of possible sizes. */
  ghost predicate Begun(env: Env, s: System) {
    Started(s) && DbOk(env, s.server) && DiskBounded(s.server)
  }

  /**
   * In every timely run, whatever the streams do, a record once stored stays and decodes: a known hash stays known and
   * the branch of the query that deletes a bad record never runs.
   */
  lemma RecordsStayDecodable(env: Env, start: System, steps: seq<Step>, more: seq<Step>, key: string)
    requires RecordsFit(env) && Begun(env, start) && Possible(env, start, steps) && TimelyRun(steps)
    requires Possible(env, Run(env, start, steps), more) && TimelyRun(more) && key in Run(env, start, steps).server.db
    ensures var t := Run(env, Run(env, start, steps), more);
            key in t.server.db && SF.Decodes(env.fmt, t.server.db[key])
  {
    RunKeepsRecords(env, start, steps);
    RunKeepsRecords(env, Run(env, start, steps), more);
  }

  // ----- files that grow -----

  /** A query of path p found the hash unknown and has not gone on yet. */
  ghost predicate PendingOn(s: System, p: string) {
    exists i :: 0 <= i < |s.attempts| && s.attempts[i].phase.Asking? && s.attempts[i].path == p
  }

  ghost predicate Lasting(env: Env, s: System, p: string) {
    Clean(env, s, p) && Records(env, s) && Known(env, s.server, p) && !PendingOn(s, p)
  }

  lemma NoNewPending(env: Env, s: System, step: Step, p: string)
    requires p in env.content && Known(env, s.server, p) && !PendingOn(s, p) && Enabled(env, s, step)
    ensures !PendingOn(Apply(env, s, step), p)
  {
    var t := Apply(env, s, step);
    forall i | 0 <= i < |t.attempts| && t.attempts[i].path == p ensures !t.attempts[i].phase.Asking? {
      if i < |s.attempts| {
        assert s.attempts[i].path == p && !s.attempts[i].phase.Asking?;
      }
    }
  }

  lemma StepLasts(env: Env, s: System, step: Step, p: string)
    requires HashOk(env) && RecordsFit(env) && Lasting(env, s, p) && Enabled(env, s, step)
    requires FlushLands(env, s, step, p) && Timely(step)
    ensures Lasting(env, Apply(env, s, step), p)
  {
    StepKeepsClean(env, s, step, p);
    StepKeepsRecords(env, s, step);
    NoNewPending(env, s, step, p);
  }

  lemma StepGrows(env: Env, s: System, step: Step, p: string)
    requires HashOk(env) && RecordsFit(env) && Lasting(env, s, p) && Enabled(env, s, step)
    requires FlushLands(env, s, step, p) && Timely(step)
    ensures Lasting(env, Apply(env, s, step), p) && FileOnDisk(s.server, p) <= FileOnDisk(Apply(env, s, step).server, p)
  {
    StepLasts(env, s, step, p);
    if step.DoFlush? {
      FlushLengthens(s.server, step.id, step.k, p);
    } else {
      OnlyFlushWrites(env, s, step, p);
    }
  }

  lemma FlushLengthens(server: Server, id: nat, k: nat, p: string)
    requires id in server.sessions && k <= |server.sessions[id].buffer|
    ensures |FileOnDisk(server, p)| <= |FileOnDisk(Flush(server, id, k), p)|
  {
    FlushParts(server, id, k);
  }

  /** A known file on which no miss is pending only grows. */
  lemma {:induction false} RunGrows(env: Env, s: System, steps: seq<Step>, p: string)
    requires HashOk(env) && RecordsFit(env) && Lasting(env, s, p) && Landing(env, s, steps, p) && TimelyRun(steps)
    ensures Lasting(env, Run(env, s, steps), p) && FileOnDisk(s.server, p) <= FileOnDisk(Run(env, s, steps).server, p)
    decreases |steps|
  {
    if steps != [] {
      StepGrows(env, s, steps[0], p);
      RunGrows(env, Apply(env, s, steps[0]), steps[1..], p);
    }
  }

  /** The pending query goes on: it removes the file. */
  function Removal(s: System, i: nat): Step
    requires i < |s.attempts| && s.attempts[i].phase.Asking?
  {
    DoMiss(i, QueryMeta(s.attempts[i].phase.mediaPrefix, 1, 1, 1, 1, false, false))
  }

  lemma PendingRemoves(env: Env, s: System, i: nat)
    requires i < |s.attempts| && s.attempts[i].phase.Asking? && s.attempts[i].path in env.content
    requires s.attempts[i].path in s.server.disk
    ensures Enabled(env, s, Removal(s, i)) && Timely(Removal(s, i)) && forall p :: Benign(env, s, Removal(s, i), p)
    ensures s.attempts[i].path !in Apply(env, s, Removal(s, i)).server.disk
  {
  }

  /** A single step that writes nothing. */
  lemma QuietLands(env: Env, s: System, step: Step, p: string)
    requires p in env.content && Enabled(env, s, step) && !step.DoFlush?
    ensures Landing(env, s, [step], p) && Run(env, s, [step]) == Apply(env, s, step)
  {
    assert [step][1..] == [];
  }

  lemma PendingLoses(env: Env, s: System, p: string)
    requires p in env.content && PendingOn(s, p) && FileOnDisk(s.server, p) != []
    ensures exists steps :: Landing(env, s, steps, p) && TimelyRun(steps) && FileOnDisk(Run(env, s, steps).server, p) == []
  {
    var i :| 0 <= i < |s.attempts| && s.attempts[i].phase.Asking? && s.attempts[i].path == p;
    PendingRemoves(env, s, i);
    QuietLands(env, s, Removal(s, i), p);
    assert [Removal(s, i)][1..] == [] && TimelyRun([Removal(s, i)]);
  }

  /**
   * A known file survives, exactly: in every later run whose writes to it land it keeps what it has, if and only if no
   * query of its path is pending that found the hash unknown, or there is nothing to lose.
   */
  lemma FileSurvivesExact(env: Env, s: System, p: string)
    requires HashOk(env) && RecordsFit(env) && Clean(env, s, p) && Records(env, s) && Known(env, s.server, p)
    ensures (forall steps :: Landing(env, s, steps, p) && TimelyRun(steps) ==>
               FileOnDisk(s.server, p) <= FileOnDisk(Run(env, s, steps).server, p))
            <==> !PendingOn(s, p) || FileOnDisk(s.server, p) == []
  {
    if !PendingOn(s, p) {
      forall steps | Landing(env, s, steps, p) && TimelyRun(steps)
        ensures FileOnDisk(s.server, p) <= FileOnDisk(Run(env, s, steps).server, p)
      {
        RunGrows(env, s, steps, p);
      }
    } else if FileOnDisk(s.server, p) != [] {
      PendingLoses(env, s, p);
    }
  }

  // ----- files that lose their name -----

  /** A session that has opened the file of p, which still has its name. */
  predicate Named(server: Server, id: nat, p: string) {
    id in server.sessions && server.sessions[id].path == p && server.sessions[id].linked && server.sessions[id].phase != Created
  }

  lemma PutNamed(a: Server, j: nat, g: Session, id: nat, p: string)
    requires Named(a, id, p) && j in a.sessions
    requires g.path == a.sessions[j].path && g.linked == a.sessions[j].linked
    requires (g.phase == Created ==> a.sessions[j].phase == Created)
    ensures Named(PutSession(a, j, g), id, p)
  {
  }

  lemma HitNamed(env: Env, a: Server, id: nat, client: string, q: string, key: string, size: nat, meta: QueryMeta, j: nat, p: string)
    requires Named(a, j, p) && j != id && key in a.db
    ensures Named(QueryHit(env, a, id, client, q, key, size, meta).0, j, p)
  {
  }

  lemma MissNamed(env: Env, a: Server, id: nat, client: string, q: string, key: string, size: nat, meta: QueryMeta, j: nat, p: string)
    requires Named(a, j, p) && j != id && q != p
    ensures Named(QueryMiss(env, a, id, client, q, key, size, meta).0, j, p)
  {
    assert Named(RemoveFile(a, q), j, p);
  }

  lemma QueryNamed(env: Env, s: System, step: Step, id: nat, p: string)
    requires IdsOk(s) && Named(s.server, id, p) && Enabled(env, s, step) && (step.DoQuery? || step.DoMiss?)
    requires !(step.DoMiss? && s.attempts[step.attempt].path == p)
    ensures Named(Apply(env, s, step).server, id, p)
  {
    match step
    case DoQuery(client, path, meta) =>
      var c := env.content[path];
      if env.hash(c) in s.server.db {
        HitNamed(env, s.server, |s.attempts|, client, path, env.hash(c), |c|, meta, id, p);
      }
    case DoMiss(i, meta) =>
      var a := s.attempts[i];
      MissNamed(env, s.server, i, a.client, a.path, env.hash(env.content[a.path]), |env.content[a.path]|, meta, id, p);
  }

  /** No step but the miss of a pending query takes a name away. */
  lemma StepKeepsName(env: Env, s: System, step: Step, id: nat, p: string)
    requires IdsOk(s) && Named(s.server, id, p) && Enabled(env, s, step)
    requires !(step.DoMiss? && s.attempts[step.attempt].path == p)
    ensures Named(Apply(env, s, step).server, id, p)
  {
    match step
    case DoQuery(_, _, _) => QueryNamed(env, s, step, id, p);
    case DoMiss(_, _) => QueryNamed(env, s, step, id, p);
    case DoDeliver(i) =>
      if HasSession(s.server, s.attempts[i].client) {
        var j := s.server.active[s.attempts[i].client];
        PutNamed(s.server, j, Feed(s.server.sessions[j], s.attempts[i].wire[0]), id, p);
      }
    case DoClose(client) =>
      if HasSession(s.server, client) {
        var j := s.server.active[client];
        PutNamed(s.server, j, ClosePipe(s.server.sessions[j]), id, p);
      }
    case DoWait(j) => PutNamed(s.server, j, s.server.sessions[j].(phase := Waiting), id, p);
    case DoSeek(j) => PutNamed(s.server, j, Sought(s.server.sessions[j]), id, p);
    case DoTake(j, k) => PutNamed(s.server, j, Taken(s.server.sessions[j], k), id, p);
    case DoFail(j) => PutNamed(s.server, j, s.server.sessions[j].(phase := Failed), id, p);
    case DoFlush(j, k) => FlushParts(s.server, j, k);
    case DoOpen(j) =>
    case DoFinish(j) =>
    case _ =>
  }

  /** A named session on a known path without a pending miss. */
  ghost predicate InUse(env: Env, s: System, id: nat, p: string) {
    && Base(env, s) && Records(env, s) && p in env.content && Known(env, s.server, p)
    && !PendingOn(s, p) && Named(s.server, id, p)
  }

  lemma StepKeepsUse(env: Env, s: System, step: Step, id: nat, p: string)
    requires RecordsFit(env) && InUse(env, s, id, p) && Enabled(env, s, step) && Timely(step)
    ensures InUse(env, Apply(env, s, step), id, p)
  {
    StepKeepsBase(env, s, step);
    StepKeepsRecords(env, s, step);
    NoNewPending(env, s, step, p);
    StepKeepsName(env, s, step, id, p);
  }

  lemma {:induction false} RunKeepsUse(env: Env, s: System, steps: seq<Step>, id: nat, p: string)
    requires RecordsFit(env) && InUse(env, s, id, p) && Possible(env, s, steps) && TimelyRun(steps)
    ensures InUse(env, Run(env, s, steps), id, p)
    decreases |steps|
  {
    if steps != [] {
      StepKeepsUse(env, s, steps[0], id, p);
      RunKeepsUse(env, Apply(env, s, steps[0]), steps[1..], id, p);
    }
  }

  lemma RemovalUnlinks(env: Env, s: System, id: nat, p: string)
    requires Base(env, s) && Named(s.server, id, p) && p in s.server.disk && p in env.content && PendingOn(s, p)
    ensures exists steps :: Possible(env, s, steps) && TimelyRun(steps) && !Named(Run(env, s, steps).server, id, p)
  {
    var i :| 0 <= i < |s.attempts| && s.attempts[i].phase.Asking? && s.attempts[i].path == p;
    PendingRemoves(env, s, i);
    OneStep(env, s, Removal(s, i));
    assert [Removal(s, i)][1..] == [] && Possible(env, s, [Removal(s, i)]) && TimelyRun([Removal(s, i)]);
    MissUnlinks(env, s, i, id);
  }

  lemma MissUnlinks(env: Env, s: System, i: nat, id: nat)
    requires Base(env, s) && i < |s.attempts| && s.attempts[i].phase.Asking? && s.attempts[i].path in s.server.disk
    requires s.attempts[i].path in env.content && Named(s.server, id, s.attempts[i].path)
    ensures !Named(Apply(env, s, Removal(s, i)).server, id, s.attempts[i].path)
  {
    assert id != i;
  }

  /** An open handle survives, exactly: a file in use keeps its name in all later runs if and only if no miss is pending. */
  lemma OpenFileSurvivesExact(env: Env, s: System, id: nat, p: string)
    requires RecordsFit(env) && Base(env, s) && Records(env, s) && p in env.content && Known(env, s.server, p)
    requires Named(s.server, id, p) && s.server.sessions[id].phase != Failed
    ensures (forall steps :: Possible(env, s, steps) && TimelyRun(steps) ==> Named(Run(env, s, steps).server, id, p))
            <==> !PendingOn(s, p)
  {
    if !PendingOn(s, p) {
      forall steps | Possible(env, s, steps) && TimelyRun(steps) ensures Named(Run(env, s, steps).server, id, p) {
        RunKeepsUse(env, s, steps, id, p);
      }
    } else {
      assert ShapeOk(env, s.server.disk, s.server.sessions[id]);
      RemovalUnlinks(env, s, id, p);
    }
  }
}
