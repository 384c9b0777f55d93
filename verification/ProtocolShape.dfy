/** What every step of the protocol keeps, under no hypothesis at all: the shape of sessions and attempts. */
module ProtocolShape {
  import opened Wrappers
  import opened FileBytes
  import opened Protocol
  import SF = ServerFile
  import W = Worker

  predicate Early(f: Session) {
    f.phase in {Created, Opened, Waiting, Signalled}
  }

  /** A session whatever it is fed: nothing written before the offset is known, and an open named file exists. */
  predicate ShapeOk(env: Env, disk: map<string, Bytes>, f: Session) {
    && f.path in env.content && f.key == env.hash(env.content[f.path])
    && (!f.pipeOpen ==> f.pipe == [])
    && (Early(f) ==> f.buffer == [] && f.copied == 0 && f.position == 0)
    && (Early(f) && !f.once ==> f.pipe == [])
    && (f.phase in {Signalled, Writing, Done} ==> f.once)
    && (f.phase == Writing ==> f.position == f.currentSize + f.copied)
    && (f.linked && f.phase !in {Created, Failed} ==> f.path in disk)
  }

  ghost predicate Tidy(env: Env, server: Server) {
    forall id :: id in server.sessions ==> ShapeOk(env, server.disk, server.sessions[id])
  }

  /** What is on the way are the next bytes of the content at the offsets claimed for them, and all the rest is taken or lost. */
  predicate WireOk(c: Bytes, a: Attempt) {
    && (a.cut ==> a.wire == [])
    && a.got + |Payload(a.wire)| <= a.sent && (!a.cut ==> a.got + |Payload(a.wire)| == a.sent)
    && (a.wire != [] ==>
          && (a.phase.Streaming? || a.phase.Ended?)
          && a.phase.start.position + a.sent <= |c|
          && Contiguous(a.phase.start.offset + a.got, a.wire)
          && Payload(a.wire) == c[a.phase.start.position + a.got..a.phase.start.position + a.sent]
          && forall k :: 0 <= k < |a.wire| ==> 0 < |a.wire[k].data| <= W.DEFAULT_BLOCK_SIZE)
  }

  predicate Unsent(a: Attempt) {
    a.sent == 0 && a.got == 0 && a.wire == [] && !a.cut
  }

  /** The first chunk on the way. */
  lemma WireHead(c: Bytes, a: Attempt)
    requires WireOk(c, a) && a.wire != []
    ensures var (h, at) := (a.wire[0], a.phase.start.position + a.got);
            && h.offset == a.phase.start.offset + a.got && 0 < |h.data| && a.got + |h.data| <= a.sent
            && at + |h.data| <= |c| && h.data == c[at..at + |h.data|]
  {
    var (h, at) := (a.wire[0], a.phase.start.position + a.got);
    assert Payload(a.wire) == h.data + Payload(a.wire[1..]);
    assert h.data == Payload(a.wire)[..|h.data|];
  }

  lemma SentWire(env: Env, a: Attempt, n: nat)
    requires a.path in env.content && WireOk(env.content[a.path], a) && Left(env, a, n) && 0 < n <= W.DEFAULT_BLOCK_SIZE
    ensures WireOk(env.content[a.path], Sent(env, a, n))
  {
    var (c, b, at) := (env.content[a.path], Sent(env, a, n), a.phase.start.position);
    if !a.cut {
      PayloadAppend(a.wire, NextChunk(env, a, n));
      ContiguousAppend(a.phase.start.offset + a.got, a.wire, NextChunk(env, a, n));
      assert c[at + a.got..at + a.sent] + c[at + a.sent..at + a.sent + n] == c[at + a.got..at + a.sent + n];
    }
  }

  lemma ReceivedWire(c: Bytes, a: Attempt)
    requires WireOk(c, a) && a.wire != []
    ensures WireOk(c, Received(a))
  {
    var (h, at) := (a.wire[0], a.phase.start.position);
    WireHead(c, a);
    assert Payload(a.wire) == h.data + Payload(a.wire[1..]);
    assert Payload(a.wire[1..]) == Payload(a.wire)[|h.data|..];
    assert c[at + a.got..at + a.sent][|h.data|..] == c[at + a.got + |h.data|..at + a.sent];
  }

  /** An attempt against its own past: what the reply said of the file seen, and what the job made of the reply. */
  predicate HistoryOk(env: Env, a: Attempt) {
    && a.path in env.content
    && (a.reply.Reply? ==>
          && (a.seen.None? ==> a.reply.dataHash == "" && a.reply.remoteSize == 0 && a.reply.size == 0)
          && (a.seen.Some? ==> a.reply.dataHash == env.hash(a.seen.value) && a.reply.size == |a.seen.value|
                               && a.reply.remoteSize == if env.reportsSize then |a.seen.value| else 0))
    && (a.reply.QueryFailed? ==> a.phase == Refused || a.phase.Asking?)
    && (a.phase.Asking? ==> a.reply.QueryFailed?)
    && (!a.phase.Streaming? && !a.phase.Ended? ==> Unsent(a))
    && a.sent <= |env.content[a.path]| && WireOk(env.content[a.path], a)
    && (a.phase.Streaming? || a.phase.Ended? ==>
          (a.phase.start.offset == 0 || a.phase.start.offset == a.reply.remoteSize)
          && a.reply.remoteSize != |env.content[a.path]|)
    && (a.phase.Ended? && !a.phase.copyFailed ==> a.phase.start.position + a.sent >= |env.content[a.path]|)
    && (a.phase.Complete? ==>
          (if a.phase.hashOk then env.hash(env.content[a.path]) else "") == a.reply.dataHash
          || |env.content[a.path]| == a.reply.remoteSize)
  }

  /** Sessions belong to attempts that have been answered, and every active client has its session. */
  ghost predicate IdsOk(s: System) {
    && (forall id :: id in s.server.sessions ==> id < |s.attempts| && !s.attempts[id].phase.Asking?)
    && (forall client :: client in s.server.active ==> s.server.active[client] in s.server.sessions)
  }

  ghost predicate Histories(env: Env, s: System) {
    forall i :: 0 <= i < |s.attempts| ==> HistoryOk(env, s.attempts[i])
  }

  ghost predicate Base(env: Env, s: System) {
    Tidy(env, s.server) && IdsOk(s) && Histories(env, s)
  }

  // ----- single operations -----

  lemma PutTidy(env: Env, server: Server, id: nat, g: Session)
    requires Tidy(env, server) && ShapeOk(env, server.disk, g)
    ensures Tidy(env, PutSession(server, id, g))
  {
  }

  lemma RemoveTidy(env: Env, server: Server, path: string)
    requires Tidy(env, server)
    ensures Tidy(env, RemoveFile(server, path))
  {
  }

  /** A removal leaves every session as it is, but for the name of its file. */
  lemma RemoveLeaves(server: Server, q: string, id: nat)
    ensures var b := RemoveFile(server, q);
            && (id in b.sessions <==> id in server.sessions)
            && (id in server.sessions ==> b.sessions[id].(linked := true) == server.sessions[id].(linked := true))
  {
  }

  /** The session a query primes. */
  lemma NewShape(env: Env, disk: map<string, Bytes>, path: string, prefix: string, size: nat, currentSize: nat, c: int, m: int)
    requires path in env.content
    ensures ShapeOk(env, disk, NewSession(path, env.hash(env.content[path]), prefix, size, currentSize, c, m))
  {
  }

  lemma OpenTidy(env: Env, server: Server, id: nat)
    requires Tidy(env, server) && id in server.sessions && server.sessions[id].phase == Created
    ensures Tidy(env, OpenFile(server, id))
  {
    assert ShapeOk(env, server.disk, server.sessions[id]);
  }

  lemma FeedShape(env: Env, disk: map<string, Bytes>, f: Session, chunk: Chunk)
    requires ShapeOk(env, disk, f)
    ensures ShapeOk(env, disk, Feed(f, chunk))
  {
  }

  lemma FlushTidy(env: Env, server: Server, id: nat, k: nat)
    requires Tidy(env, server) && id in server.sessions && server.sessions[id].phase == Writing
    requires k <= |server.sessions[id].buffer|
    ensures Tidy(env, Flush(server, id, k))
  {
    var (f, b) := (server.sessions[id], Flush(server, id, k));
    assert ShapeOk(env, server.disk, f);
    FlushShape(env, server.disk, f, k);
    SameNames(env, server, b.disk);
    PutTidy(env, server.(disk := b.disk), id, f.(position := f.position + k, copied := f.copied + k, buffer := f.buffer[k..]));
  }

  lemma FlushShape(env: Env, disk: map<string, Bytes>, f: Session, k: nat)
    requires ShapeOk(env, disk, f) && f.phase == Writing && k <= |f.buffer|
    ensures ShapeOk(env, disk, f.(position := f.position + k, copied := f.copied + k, buffer := f.buffer[k..]))
  {
  }

  /** Shapes speak of the names on a disk only. */
  lemma SameNames(env: Env, server: Server, disk: map<string, Bytes>)
    requires Tidy(env, server) && disk.Keys == server.disk.Keys
    ensures Tidy(env, server.(disk := disk))
    ensures forall f :: ShapeOk(env, server.disk, f) ==> ShapeOk(env, disk, f)
  {
  }

  lemma FinishTidy(env: Env, server: Server, id: nat)
    requires Tidy(env, server) && id in server.sessions && server.sessions[id].phase == Writing
    ensures Tidy(env, Finish(env, server, id))
  {
    var f := server.sessions[id];
    assert ShapeOk(env, server.disk, f);
    assert ShapeOk(env, server.disk, Counted(f).(phase := Failed)) && ShapeOk(env, server.disk, Counted(f).(phase := Done));
  }

  lemma ActivateTidy(env: Env, server: Server, client: string, id: nat, f: Session)
    requires Tidy(env, server) && ShapeOk(env, server.disk, f)
    ensures Tidy(env, SetActive(server, client, id, f))
  {
  }

  lemma HitTidy(env: Env, server: Server, id: nat, client: string, path: string, size: nat, meta: QueryMeta)
    requires Tidy(env, server) && path in env.content && env.hash(env.content[path]) in server.db
    ensures Tidy(env, QueryHit(env, server, id, client, path, env.hash(env.content[path]), size, meta).0)
  {
    var f := NewSession(path, env.hash(env.content[path]), meta.mediaPrefix, size, |FileOnDisk(server, path)|, meta.clientTime,
                        if path in server.disk then meta.diskTime else SF.EPOCH);
    NewShape(env, server.disk, path, f.mediaPrefix, size, f.currentSize, f.creationTime, f.modifiedTime);
    ActivateTidy(env, server, client, id, f);
  }

  lemma MissTidy(env: Env, server: Server, id: nat, client: string, path: string, size: nat, meta: QueryMeta)
    requires Tidy(env, server) && path in env.content
    ensures Tidy(env, QueryMiss(env, server, id, client, path, env.hash(env.content[path]), size, meta).0)
  {
    var key := env.hash(env.content[path]);
    var cleaned := if path in server.disk then RemoveFile(server, path) else server;
    RemoveTidy(env, server, path);
    var f := NewSession(path, key, meta.mediaPrefix, size, 0, meta.createdAt, meta.modifiedAt);
    var text := SF.Encode(env.fmt, RecordOf(f));
    if text.Some? {
      var stored := cleaned.(db := cleaned.db[key := text.value]);
      NewShape(env, stored.disk, path, meta.mediaPrefix, size, 0, meta.createdAt, meta.modifiedAt);
      assert Tidy(env, stored);
      ActivateTidy(env, stored, client, id, f);
      OpenTidy(env, SetActive(stored, client, id, f), id);
    }
  }

  // ----- sessions and clients by name -----

  /** What a query does to the session map and to the map of active clients. */
  lemma HitIds(env: Env, server: Server, id: nat, client: string, path: string, key: string, size: nat, meta: QueryMeta)
    requires key in server.db
    ensures var b := QueryHit(env, server, id, client, path, key, size, meta).0;
            || (b.sessions == server.sessions && b.active == server.active)
            || (b.sessions.Keys == server.sessions.Keys + {id} && b.active == server.active[client := id])
  {
  }

  lemma MissIds(env: Env, server: Server, id: nat, client: string, path: string, key: string, size: nat, meta: QueryMeta)
    ensures var b := QueryMiss(env, server, id, client, path, key, size, meta).0;
            || (b.sessions.Keys == server.sessions.Keys && b.active == server.active)
            || (b.sessions.Keys == server.sessions.Keys + {id} && b.active == server.active[client := id])
  {
    assert RemoveFile(server, path).sessions.Keys == server.sessions.Keys;
  }

  lemma HitHistory(env: Env, server: Server, id: nat, a: Attempt, meta: QueryMeta)
    requires a.path in env.content && Unsent(a) && env.hash(env.content[a.path]) in server.db
    ensures var c := env.content[a.path];
            var (b, reply) := QueryHit(env, server, id, a.client, a.path, env.hash(c), |c|, meta);
            HistoryOk(env, Answer(a, b, reply)) && !Answer(a, b, reply).phase.Asking?
  {
  }

  lemma MissHistory(env: Env, server: Server, id: nat, a: Attempt, meta: QueryMeta)
    requires a.path in env.content && Unsent(a)
    ensures var c := env.content[a.path];
            var (b, reply) := QueryMiss(env, server, id, a.client, a.path, env.hash(c), |c|, meta);
            HistoryOk(env, Answer(a, b, reply)) && !Answer(a, b, reply).phase.Asking?
  {
  }

  lemma AskBase(env: Env, s: System, client: string, path: string, meta: QueryMeta)
    requires Base(env, s) && path in env.content
    ensures Base(env, Ask(env, s, client, path, meta))
  {
    var (c, a) := (env.content[path], NewAttempt(client, path, meta.mediaPrefix));
    if env.hash(c) in s.server.db {
      HitTidy(env, s.server, |s.attempts|, client, path, |c|, meta);
      HitIds(env, s.server, |s.attempts|, client, path, env.hash(c), |c|, meta);
      HitHistory(env, s.server, |s.attempts|, a, meta);
    }
  }

  lemma MissBase(env: Env, s: System, i: nat, meta: QueryMeta)
    requires Base(env, s) && i < |s.attempts| && s.attempts[i].phase.Asking?
    ensures Base(env, Miss(env, s, i, meta))
  {
    var a := s.attempts[i];
    assert HistoryOk(env, a);
    var c := env.content[a.path];
    MissTidy(env, s.server, i, a.client, a.path, |c|, meta);
    MissIds(env, s.server, i, a.client, a.path, env.hash(c), |c|, meta);
    MissHistory(env, s.server, i, a, meta);
  }

  // ----- attempts -----

  lemma BeginHistory(env: Env, a: Attempt, io: W.LocalIO)
    requires HistoryOk(env, a) && a.phase == Replied && a.reply.Reply?
    ensures HistoryOk(env, a.(phase := Decide(env, a, io)))
    ensures !Decide(env, a, io).Asking?
  {
  }

  /** One attempt changes, the server does not. */
  lemma AttemptBase(env: Env, s: System, i: nat, a: Attempt)
    requires Base(env, s) && i < |s.attempts| && HistoryOk(env, a) && !a.phase.Asking?
    ensures Base(env, s.(attempts := s.attempts[i := a]))
  {
  }

  /** One session changes and keeps its shape, the rest of the server does not. */
  lemma SessionBase(env: Env, s: System, id: nat, g: Session)
    requires Base(env, s) && id in s.server.sessions && ShapeOk(env, s.server.disk, g)
    ensures Base(env, s.(server := PutSession(s.server, id, g)))
  {
    PutTidy(env, s.server, id, g);
  }

  lemma SendBase(env: Env, s: System, i: nat, n: nat)
    requires Base(env, s) && Enabled(env, s, DoSend(i, n))
    ensures Base(env, Apply(env, s, DoSend(i, n)))
  {
    var a := s.attempts[i];
    assert HistoryOk(env, a);
    SentWire(env, a, n);
    AttemptBase(env, s, i, Sent(env, a, n));
  }

  lemma DeliverBase(env: Env, s: System, i: nat)
    requires Base(env, s) && Enabled(env, s, DoDeliver(i))
    ensures Base(env, Apply(env, s, DoDeliver(i)))
  {
    var a := s.attempts[i];
    assert HistoryOk(env, a);
    ReceivedWire(env.content[a.path], a);
    AttemptBase(env, s, i, Received(a));
    var t := s.(attempts := s.attempts[i := Received(a)]);
    if HasSession(s.server, a.client) {
      var id := s.server.active[a.client];
      FeedShape(env, s.server.disk, s.server.sessions[id], a.wire[0]);
      SessionBase(env, t, id, Feed(s.server.sessions[id], a.wire[0]));
    }
  }

  lemma CutBase(env: Env, s: System, i: nat)
    requires Base(env, s) && Enabled(env, s, DoCut(i))
    ensures Base(env, Apply(env, s, DoCut(i)))
  {
    assert HistoryOk(env, s.attempts[i]);
    AttemptBase(env, s, i, Cut(s.attempts[i]));
  }

  lemma EndBase(env: Env, s: System, i: nat, copyFails: bool)
    requires Base(env, s) && Enabled(env, s, DoEnd(i, copyFails))
    ensures Base(env, Apply(env, s, DoEnd(i, copyFails)))
  {
    assert HistoryOk(env, s.attempts[i]);
    AttemptBase(env, s, i, s.attempts[i].(phase := Ended(s.attempts[i].phase.start, copyFails)));
  }

  lemma CloseBase(env: Env, s: System, client: string)
    requires Base(env, s)
    ensures Base(env, Apply(env, s, DoClose(client)))
  {
    if HasSession(s.server, client) {
      var id := s.server.active[client];
      assert ShapeOk(env, s.server.disk, s.server.sessions[id]);
      SessionBase(env, s, id, ClosePipe(s.server.sessions[id]));
    }
  }

  lemma WriterBase(env: Env, s: System, step: Step)
    requires Base(env, s) && Enabled(env, s, step)
    requires step.DoWait? || step.DoSeek? || step.DoTake? || step.DoFail?
    ensures Base(env, Apply(env, s, step))
  {
    var id := step.id;
    var f := s.server.sessions[id];
    assert ShapeOk(env, s.server.disk, f);
    match step
    case DoWait(_) => SessionBase(env, s, id, f.(phase := Waiting));
    case DoSeek(_) => SessionBase(env, s, id, Sought(f));
    case DoTake(_, k) => SessionBase(env, s, id, Taken(f, k));
    case DoFail(_) => SessionBase(env, s, id, f.(phase := Failed));
  }

  /** The disk or the database changes, and one session. */
  lemma ServerBase(env: Env, s: System, b: Server)
    requires Base(env, s) && Tidy(env, b) && b.sessions.Keys == s.server.sessions.Keys && b.active == s.server.active
    ensures Base(env, s.(server := b))
  {
  }

  lemma OpenBase(env: Env, s: System, id: nat)
    requires Base(env, s) && Enabled(env, s, DoOpen(id))
    ensures Base(env, Apply(env, s, DoOpen(id)))
  {
    OpenTidy(env, s.server, id);
    assert OpenFile(s.server, id).sessions.Keys == s.server.sessions.Keys;
    ServerBase(env, s, OpenFile(s.server, id));
  }

  lemma FlushBase(env: Env, s: System, id: nat, k: nat)
    requires Base(env, s) && Enabled(env, s, DoFlush(id, k))
    ensures Base(env, Apply(env, s, DoFlush(id, k)))
  {
    FlushTidy(env, s.server, id, k);
    assert Flush(s.server, id, k).sessions.Keys == s.server.sessions.Keys;
    ServerBase(env, s, Flush(s.server, id, k));
  }

  lemma FinishIds(env: Env, a: Server, id: nat)
    requires id in a.sessions
    ensures Finish(env, a, id).sessions.Keys == a.sessions.Keys && Finish(env, a, id).active == a.active
  {
  }

  lemma FinishBase(env: Env, s: System, id: nat)
    requires Base(env, s) && Enabled(env, s, DoFinish(id))
    ensures Base(env, Apply(env, s, DoFinish(id)))
  {
    FinishTidy(env, s.server, id);
    FinishIds(env, s.server, id);
    ServerBase(env, s, Finish(env, s.server, id));
  }

  lemma StepKeepsBase(env: Env, s: System, step: Step)
    requires Base(env, s) && Enabled(env, s, step)
    ensures Base(env, Apply(env, s, step))
  {
    match step
    case DoQuery(client, path, meta) => AskBase(env, s, client, path, meta);
    case DoMiss(i, meta) => MissBase(env, s, i, meta);
    case DoBegin(i, io) =>
      BeginHistory(env, s.attempts[i], io);
      AttemptBase(env, s, i, s.attempts[i].(phase := Decide(env, s.attempts[i], io)));
    case DoSend(i, n) => SendBase(env, s, i, n);
    case DoDeliver(i) => DeliverBase(env, s, i);
    case DoCut(i) => CutBase(env, s, i);
    case DoEnd(i, copyFails) => EndBase(env, s, i, copyFails);
    case DoClose(client) => CloseBase(env, s, client);
    case DoOpen(id) => OpenBase(env, s, id);
    case DoFlush(id, k) => FlushBase(env, s, id, k);
    case DoFinish(id) => FinishBase(env, s, id);
    case _ => WriterBase(env, s, step);
  }

  /** Every run at all keeps the shapes. */
  lemma {:induction false} RunKeepsBase(env: Env, s: System, steps: seq<Step>)
    requires Base(env, s) && Possible(env, s, steps)
    ensures Base(env, Run(env, s, steps))
    decreases |steps|
  {
    if steps != [] {
      StepKeepsBase(env, s, steps[0]);
      RunKeepsBase(env, Apply(env, s, steps[0]), steps[1..]);
    }
  }
}
