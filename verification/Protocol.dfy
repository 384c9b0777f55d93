/**
 * The query/transfer protocol as a transition system: any number of clients, attempts, server sessions and writer
 * threads on any number of paths, interleaved step by step. A session is the File object a query allocates; it is
 * named by the number of that query, which is also the number of the client's attempt.
 */
module Protocol {
  import opened Wrappers
  import opened FileBytes
  import SF = ServerFile
  import W = Worker

  /**
   * What a run does not change: the content each client file has, by the server path it maps to, the hash, the text
   * form of times, and whether the server reports SizeOnDisk (today it never does).
   */
  datatype Env = Env(content: map<string, Bytes>, hash: W.Hash, fmt: SF.TimeFormat, reportsSize: bool)

  const INT63_LIMIT: nat := 0x8000_0000_0000_0000

  /** The hypothesis on the hash: never the empty text, and collision free on the contents in play and their prefixes. */
  ghost predicate HashOk(env: Env) {
    && (forall b: Bytes :: env.hash(b) != "")
    && (forall p, k, q :: p in env.content && q in env.content && 0 <= k <= |env.content[p]|
                          && env.hash(env.content[p][..k]) == env.hash(env.content[q])
                          ==> env.content[p][..k] == env.content[q])
  }

  /** Collision free against everything a server may find on its disk: needed only where stale files are spoken of. */
  ghost predicate NoCollision(env: Env) {
    forall b: Bytes, p :: p in env.content && env.hash(b) == env.hash(env.content[p]) ==> b == env.content[p]
  }

  lemma PrefixHash(env: Env, p: string, b: Bytes, q: string)
    requires HashOk(env) && p in env.content && q in env.content && b <= env.content[p]
    requires env.hash(b) == env.hash(env.content[q])
    ensures b == env.content[q]
  {
    assert b == env.content[p][..|b|];
  }

  /** What the records need: times with text forms that come back, plain server paths, sizes below 2^63. */
  ghost predicate RecordsFit(env: Env) {
    && SF.ValidFormat(env.fmt)
    && (forall p :: p in env.content ==> |env.content[p]| < INT63_LIMIT && SF.Plain(p))
  }

  ghost predicate ValidEnv(env: Env) {
    HashOk(env) && RecordsFit(env)
  }

  // ----- state -----

  /** The writer thread: before open, opened, in Cond.Wait, woken, copying, finished, ended by an error. */
  datatype Phase = Created | Opened | Waiting | Signalled | Writing | Done | Failed

  datatype Session = Session(path: string, key: string, mediaPrefix: string, size: nat, currentSize: nat,
                             creationTime: int, modifiedTime: int, once: bool, phase: Phase,
                             position: nat, linked: bool, pipeOpen: bool, pipe: Bytes, buffer: Bytes, copied: nat)

  datatype Server = Server(disk: map<string, Bytes>, db: map<string, string>, active: map<string, nat>,
                           sessions: map<nat, Session>)

  /** `Asking`: the database did not know the hash, the rest of the query is still to run. `Ended`: the stream is over. */
  datatype AttemptPhase = Asking(mediaPrefix: string) | Refused | Replied | Complete(hashOk: bool) | NotOpened
                        | Streaming(start: W.Start) | Ended(start: W.Start, copyFailed: bool)

  /**
   * A client attempt; `seen` is the server file at the moment of the reply, kept as history only. Of its stream: the
   * bytes the client has sent, those of them the server has taken, the chunks on their way, and whether it was cut off.
   */
  datatype Attempt = Attempt(client: string, path: string, reply: W.QueryResult, seen: Option<Bytes>,
                             phase: AttemptPhase, sent: nat, got: nat, wire: seq<Chunk>, cut: bool)

  datatype System = System(server: Server, attempts: seq<Attempt>)

  /** The circumstances of one query: prefix and time on the wire, clock readings, and what the calls made of them. */
  datatype QueryMeta = QueryMeta(mediaPrefix: string, clientTime: int, createdAt: int, modifiedAt: int, diskTime: int,
                                 removeFails: bool, sawCreated: bool)

  // ----- server operations -----

  /** The bytes at a path, an absent file counted as empty. */
  function FileOnDisk(server: Server, path: string): Bytes {
    if path in server.disk then server.disk[path] else []
  }

  function RecordOf(f: Session): SF.Record {
    SF.Record(f.path, f.mediaPrefix, f.size, f.currentSize, f.creationTime, f.modifiedTime)
  }

  /** What GenerateRPCFile reports of the path. */
  function Report(env: Env, server: Server, path: string): W.QueryResult {
    W.Reply(if path in server.disk then env.hash(server.disk[path]) else "",
            if env.reportsSize then |FileOnDisk(server, path)| else 0,
            |FileOnDisk(server, path)|)
  }

  /** os.Remove: sessions that have the file open keep a file without a name. */
  function RemoveFile(server: Server, path: string): Server {
    server.(disk := server.disk - {path},
            sessions := map id | id in server.sessions ::
              if server.sessions[id].path == path then server.sessions[id].(linked := false) else server.sessions[id])
  }

  function NewSession(path: string, key: string, mediaPrefix: string, size: nat, currentSize: nat,
                      creationTime: int, modifiedTime: int): Session {
    Session(path, key, mediaPrefix, size, currentSize, creationTime, modifiedTime, false, Created, 0, true, true, [], [], 0)
  }

  /** setActiveFile: the session replaces the client's previous one. */
  function SetActive(server: Server, client: string, id: nat, f: Session): Server {
    server.(active := server.active[client := id], sessions := server.sessions[id := f])
  }

  function PutSession(server: Server, id: nat, f: Session): Server {
    server.(sessions := server.sessions[id := f])
  }

  /** The writer thread opens the file, creating it if needed and never truncating it. */
  function OpenFile(server: Server, id: nat): Server
    requires id in server.sessions
  {
    var f := server.sessions[id];
    server.(disk := if f.path in server.disk then server.disk else server.disk[f.path := []],
            sessions := server.sessions[id := f.(phase := Opened, linked := true)])
  }

  /** QueryFunction on an unknown hash, after the lookup: remove the file of that name, record the hash, prime a session. */
  function QueryMiss(env: Env, server: Server, id: nat, client: string, path: string, key: string, size: nat, meta: QueryMeta)
    : (Server, W.QueryResult)
  {
    if path in server.disk && meta.removeFails then (server, W.QueryFailed)
    else
      var cleaned := if path in server.disk then RemoveFile(server, path) else server;
      var f := NewSession(path, key, meta.mediaPrefix, size, 0, meta.createdAt, meta.modifiedAt);
      var text := SF.Encode(env.fmt, RecordOf(f));
      if text == None then (cleaned, W.QueryFailed)
      else
        var primed := SetActive(cleaned.(db := cleaned.db[key := text.value]), client, id, f);
        var ready := if meta.sawCreated then OpenFile(primed, id) else primed;
        (ready, Report(env, ready, path))
  }

  /** QueryFunction on a known hash: an undecodable record is deleted, an unfinished file is primed again. */
  function QueryHit(env: Env, server: Server, id: nat, client: string, path: string, key: string, size: nat, meta: QueryMeta)
    : (Server, W.QueryResult)
    requires key in server.db
  {
    if !SF.Decodes(env.fmt, server.db[key]) then (server.(db := server.db - {key}), W.QueryFailed)
    else
      var f := NewSession(path, key, meta.mediaPrefix, size, |FileOnDisk(server, path)|, meta.clientTime,
                          if path in server.disk then meta.diskTime else SF.EPOCH);
      var reply := Report(env, server, path);
      (if reply.dataHash != key then SetActive(server, client, id, f) else server, reply)
  }

  function Query(env: Env, server: Server, id: nat, client: string, path: string, key: string, size: nat, meta: QueryMeta)
    : (Server, W.QueryResult)
  {
    if key !in server.db then QueryMiss(env, server, id, client, path, key, size, meta)
    else QueryHit(env, server, id, client, path, key, size, meta)
  }

  /** TransferFunction on a session: the first call fixes the offset, every call writes to the pipe while it is open. */
  function Feed(f: Session, chunk: Chunk): Session {
    var started := if f.once then f
                   else f.(once := true, currentSize := chunk.offset,
                           phase := if f.phase == Waiting then Signalled else f.phase);
    if started.pipeOpen then started.(pipe := started.pipe + chunk.data) else started
  }

  /** TransferFunction: the client's current session takes the chunk, whichever stream it comes from. */
  function Transfer(server: Server, client: string, chunk: Chunk): Server {
    if client in server.active && server.active[client] in server.sessions then
      PutSession(server, server.active[client], Feed(server.sessions[server.active[client]], chunk))
    else server
  }

  /** The receive loop's calls, one after the other, with no writer in between. */
  function TransferAll(server: Server, client: string, requests: seq<Chunk>): Server {
    if requests == [] then server
    else Transfer(TransferAll(server, client, requests[..|requests| - 1]), client, requests[|requests| - 1])
  }

  /** A session after a list of requests: the first offset counts if none counted before, all bytes join the pipe. */
  function FeedAll(f: Session, requests: seq<Chunk>): Session {
    if requests == [] then f
    else
      var started := if f.once then f
                     else f.(once := true, currentSize := requests[0].offset,
                             phase := if f.phase == Waiting then Signalled else f.phase);
      if started.pipeOpen then started.(pipe := started.pipe + Payload(requests)) else started
  }

  lemma FeedOneMore(f: Session, requests: seq<Chunk>, last: Chunk)
    ensures FeedAll(f, requests + [last]) == Feed(FeedAll(f, requests), last)
  {
    PayloadAppend(requests, last);
    assert f.pipe + (Payload(requests) + last.data) == f.pipe + Payload(requests) + last.data;
    if requests == [] {
      assert requests + [last] == [last] && Payload(requests) == [];
    }
  }

  /** The receive loop, whole: of all offsets only the first counts, and the bytes are appended in order. */
  lemma {:induction false} StreamFeedsSession(server: Server, client: string, id: nat, requests: seq<Chunk>)
    requires client in server.active && server.active[client] == id && id in server.sessions
    ensures TransferAll(server, client, requests) == PutSession(server, id, FeedAll(server.sessions[id], requests))
    decreases |requests|
  {
    if requests == [] {
      assert server.sessions[id := server.sessions[id]] == server.sessions;
    } else {
      var (init, last) := (requests[..|requests| - 1], requests[|requests| - 1]);
      StreamFeedsSession(server, client, id, init);
      FeedOneMore(server.sessions[id], init, last);
      assert requests == init + [last];
      MapTwice(server.sessions, id, FeedAll(server.sessions[id], init), FeedAll(server.sessions[id], requests));
    }
  }

  /** Closing the write end drops whatever the writer thread has not read. */
  function ClosePipe(f: Session): Session {
    f.(pipeOpen := false, pipe := [])
  }

  /** Close: the current session of the client, whichever stream ended. */
  function Close(server: Server, client: string): Server {
    if client in server.active && server.active[client] in server.sessions then
      PutSession(server, server.active[client], ClosePipe(server.sessions[server.active[client]]))
    else server
  }

  /** One write of the writer thread, through a handle whose file may have lost its name. */
  function Flush(server: Server, id: nat, k: nat): Server
    requires id in server.sessions && k <= |server.sessions[id].buffer|
  {
    var f := server.sessions[id];
    server.(disk := if f.linked && f.path in server.disk
                    then server.disk[f.path := WriteAt(server.disk[f.path], f.position, f.buffer[..k])] else server.disk,
            sessions := server.sessions[id := f.(position := f.position + k, copied := f.copied + k, buffer := f.buffer[k..])])
  }

  /** The session with its copied bytes counted, in uint64. */
  function Counted(f: Session): Session {
    f.(currentSize := (f.currentSize + f.copied) % SF.UINT64_LIMIT)
  }

  /** End of the copy: the copied bytes are added to the size and the record is stored under the session's key. */
  function Finish(env: Env, server: Server, id: nat): Server
    requires id in server.sessions
  {
    var f := Counted(server.sessions[id]);
    var text := SF.Encode(env.fmt, RecordOf(f));
    if text == None then PutSession(server, id, f.(phase := Failed))
    else PutSession(server.(db := server.db[f.key := text.value]), id, f.(phase := Done))
  }

  // ----- steps of the whole system -----

  datatype Step =
    | DoQuery(client: string, path: string, meta: QueryMeta)
    | DoMiss(attempt: nat, meta: QueryMeta)
    | DoBegin(attempt: nat, io: W.LocalIO)
    | DoSend(attempt: nat, n: nat)
    | DoDeliver(attempt: nat)
    | DoCut(attempt: nat)
    | DoEnd(attempt: nat, copyFails: bool)
    | DoClose(client: string)
    | DoOpen(id: nat)
    | DoWait(id: nat)
    | DoSeek(id: nat)
    | DoTake(id: nat, k: nat)
    | DoFlush(id: nat, k: nat)
    | DoFinish(id: nat)
    | DoFail(id: nat)

  /** The writer thread of session id stands at a phase. */
  predicate At(s: System, id: nat, phase: Phase) {
    id in s.server.sessions && s.server.sessions[id].phase == phase
  }

  /** A pipe write waits until the previous one has been read, unless the pipe is closed. */
  predicate PipeFree(server: Server, client: string) {
    client in server.active && server.active[client] in server.sessions ==>
      var f := server.sessions[server.active[client]];
      !f.pipeOpen || f.pipe == []
  }

  /** The attempt has n more bytes of its content to send. */
  predicate Left(env: Env, a: Attempt, n: nat) {
    a.phase.Streaming? && a.path in env.content && a.phase.start.position + a.sent + n <= |env.content[a.path]|
  }

  /**
   * Offsets from 2^63 on can be neither sought nor written. A send returns before the server has received anything. A
   * stream ends when the local copy fails or all is sent, and can be cut off at any time, before its end or after.
   */
  predicate Enabled(env: Env, s: System, step: Step) {
    match step
    case DoQuery(client, path, meta) => path in env.content
    case DoMiss(i, meta) => i < |s.attempts| && s.attempts[i].phase == Asking(meta.mediaPrefix) && s.attempts[i].path in env.content
    case DoBegin(i, io) => i < |s.attempts| && s.attempts[i].phase == Replied && s.attempts[i].path in env.content
                           && s.attempts[i].reply.Reply?
    case DoSend(i, n) => i < |s.attempts| && 0 < n <= W.DEFAULT_BLOCK_SIZE && Left(env, s.attempts[i], n)
    case DoDeliver(i) => i < |s.attempts| && s.attempts[i].wire != [] && PipeFree(s.server, s.attempts[i].client)
    case DoCut(i) => i < |s.attempts| && (s.attempts[i].phase.Streaming? || s.attempts[i].phase.Ended?)
    case DoEnd(i, copyFails) => i < |s.attempts| && s.attempts[i].phase.Streaming? && s.attempts[i].path in env.content
                                && (copyFails || !Left(env, s.attempts[i], 1))
    case DoClose(client) => true
    case DoOpen(id) => At(s, id, Created)
    case DoWait(id) => At(s, id, Opened)
    case DoSeek(id) => At(s, id, Signalled) && s.server.sessions[id].currentSize < INT63_LIMIT
    case DoTake(id, k) => At(s, id, Writing) && s.server.sessions[id].buffer == [] && 0 < k <= |s.server.sessions[id].pipe|
    case DoFlush(id, k) => At(s, id, Writing) && 0 < k <= |s.server.sessions[id].buffer|
                           && s.server.sessions[id].position + k < INT63_LIMIT
    case DoFinish(id) => At(s, id, Writing) && s.server.sessions[id].buffer == [] && !s.server.sessions[id].pipeOpen
    case DoFail(id) => id in s.server.sessions && !At(s, id, Done)
  }

  /** An attempt with the answer of its query, and the server file the answer was made of. */
  function Answer(a: Attempt, server: Server, reply: W.QueryResult): Attempt {
    a.(reply := reply, seen := if a.path in server.disk then Some(server.disk[a.path]) else None,
       phase := if reply.Reply? then Replied else Refused)
  }

  function NewAttempt(client: string, path: string, mediaPrefix: string): Attempt {
    Attempt(client, path, W.QueryFailed, None, Asking(mediaPrefix), 0, 0, [], false)
  }

  /** The lookup of a query: a known hash is answered at once, an unknown one later. */
  function Ask(env: Env, s: System, client: string, path: string, meta: QueryMeta): System
    requires path in env.content
  {
    var (c, a) := (env.content[path], NewAttempt(client, path, meta.mediaPrefix));
    if env.hash(c) in s.server.db then
      var (server, reply) := QueryHit(env, s.server, |s.attempts|, client, path, env.hash(c), |c|, meta);
      System(server, s.attempts + [Answer(a, server, reply)])
    else System(s.server, s.attempts + [a])
  }

  /** The rest of a query whose hash was not known when it was looked up. */
  function Miss(env: Env, s: System, i: nat, meta: QueryMeta): System
    requires i < |s.attempts| && s.attempts[i].path in env.content
  {
    var a := s.attempts[i];
    var c := env.content[a.path];
    var (server, reply) := QueryMiss(env, s.server, i, a.client, a.path, env.hash(c), |c|, meta);
    System(server, s.attempts[i := Answer(a, server, reply)])
  }

  /** The job's decision on a reply, as an attempt phase. */
  function Decide(env: Env, a: Attempt, io: W.LocalIO): AttemptPhase
    requires a.path in env.content
  {
    var c := env.content[a.path];
    match W.JobPlan(W.ClientFile(0, a.path, |c|), c, env.hash, a.reply, io)
    case PlanQueryError => Refused
    case PlanComplete => Complete(io.hashOk)
    case PlanOpenFailed => NotOpened
    case PlanTransfer(start) => Streaming(start)
  }

  /** The next n bytes of an attempt's stream, with the offset it claims for them. */
  function NextChunk(env: Env, a: Attempt, n: nat): Chunk
    requires Left(env, a, n)
  {
    var at := a.phase.start.position + a.sent;
    Chunk(a.phase.start.offset + a.sent, env.content[a.path][at..at + n])
  }

  /** The client sends n bytes; on a stream that was cut off they are lost. */
  function Sent(env: Env, a: Attempt, n: nat): Attempt
    requires Left(env, a, n)
  {
    a.(sent := a.sent + n, wire := if a.cut then a.wire else a.wire + [NextChunk(env, a, n)])
  }

  /** The server takes the first chunk on the way. */
  function Received(a: Attempt): Attempt
    requires a.wire != []
  {
    a.(got := a.got + |a.wire[0].data|, wire := a.wire[1..])
  }

  function Cut(a: Attempt): Attempt {
    a.(wire := [], cut := true)
  }

  /** The writer seeks to the offset the first chunk gave. */
  function Sought(f: Session): Session {
    f.(phase := Writing, position := f.currentSize)
  }

  /** The writer reads k bytes from the pipe. */
  function Taken(f: Session, k: nat): Session
    requires k <= |f.pipe|
  {
    f.(buffer := f.pipe[..k], pipe := f.pipe[k..])
  }

  function Apply(env: Env, s: System, step: Step): System
    requires Enabled(env, s, step)
  {
    match step
    case DoQuery(client, path, meta) => Ask(env, s, client, path, meta)
    case DoMiss(i, meta) => Miss(env, s, i, meta)
    case DoBegin(i, io) =>
      s.(attempts := s.attempts[i := s.attempts[i].(phase := Decide(env, s.attempts[i], io))])
    case DoSend(i, n) => s.(attempts := s.attempts[i := Sent(env, s.attempts[i], n)])
    case DoDeliver(i) =>
      var a := s.attempts[i];
      System(Transfer(s.server, a.client, a.wire[0]), s.attempts[i := Received(a)])
    case DoCut(i) => s.(attempts := s.attempts[i := Cut(s.attempts[i])])
    case DoEnd(i, copyFails) =>
      s.(attempts := s.attempts[i := s.attempts[i].(phase := Ended(s.attempts[i].phase.start, copyFails))])
    case DoClose(client) => s.(server := Close(s.server, client))
    case DoOpen(id) => s.(server := OpenFile(s.server, id))
    case DoWait(id) => s.(server := PutSession(s.server, id, s.server.sessions[id].(phase := Waiting)))
    case DoSeek(id) => s.(server := PutSession(s.server, id, Sought(s.server.sessions[id])))
    case DoTake(id, k) => s.(server := PutSession(s.server, id, Taken(s.server.sessions[id], k)))
    case DoFlush(id, k) => s.(server := Flush(s.server, id, k))
    case DoFinish(id) => s.(server := Finish(env, s.server, id))
    case DoFail(id) => s.(server := PutSession(s.server, id, s.server.sessions[id].(phase := Failed)))
  }

  /** A job whose local calls all succeed. */
  const ALL_WELL := W.LocalIO(true, true, true, 0, true, true)

  // ----- runs -----

  /** The session that takes the chunks of a client, if there is one. */
  predicate HasSession(server: Server, client: string) {
    client in server.active && server.active[client] in server.sessions
  }

  /** What the session is sent will be written to the file of its path: open pipe, named file, a writer that listens. */
  predicate Heard(f: Session) {
    f.pipeOpen && f.linked && (f.phase in {Signalled, Writing} || (f.phase == Waiting && !f.once))
  }

  /** Where the next byte written to the pipe will land in the file. */
  function AppendPosition(f: Session): nat {
    if f.phase == Writing then f.position + |f.buffer| + |f.pipe| else f.currentSize + |f.pipe|
  }

  /**
   * A check on a chunk that a server could make before it takes it: the first one starts inside the file, every later
   * one where the bytes before it end. A session that writes to no named file takes anything.
   */
  predicate Aligned(server: Server, f: Session, offset: nat) {
    Heard(f) ==> if f.once then offset == AppendPosition(f) else offset <= |FileOnDisk(server, f.path)|
  }

  /**
   * The hypotheses on single steps, as far as path p is concerned: the local calls of a starting transfer keep claim and
   * read position together, and the chunks that reach a listening session of p, whichever stream they come from, are
   * aligned and of the same path.
   */
  predicate Benign(env: Env, s: System, step: Step, p: string)
    requires Enabled(env, s, step)
  {
    match step
    case DoBegin(i, io) =>
      var a := s.attempts[i];
      a.path == p && a.reply.remoteSize <= |env.content[p]| ==> W.LocalCallsAgree(env.content[p], env.hash, a.reply, io)
    case DoDeliver(i) =>
      var a := s.attempts[i];
      HasSession(s.server, a.client) ==>
        var f := s.server.sessions[s.server.active[a.client]];
        f.path == p && Heard(f) ==> a.path == p && Aligned(s.server, f, a.wire[0].offset)
    case _ => true
  }

  /** The hypotheses on the records: plain prefixes, and no time at the epoch. */
  predicate Timely(step: Step) {
    match step
    case DoQuery(client, path, meta) => SF.Plain(meta.mediaPrefix) && meta.clientTime != SF.EPOCH
    case DoMiss(i, meta) => meta.createdAt != SF.EPOCH
    case _ => true
  }

  /** Every step of the run can be taken. */
  predicate Possible(env: Env, s: System, steps: seq<Step>)
    decreases |steps|
  {
    steps == [] || (Enabled(env, s, steps[0]) && Possible(env, Apply(env, s, steps[0]), steps[1..]))
  }

  predicate BenignRun(env: Env, s: System, steps: seq<Step>, p: string)
    requires Possible(env, s, steps)
    decreases |steps|
  {
    steps == [] || (Benign(env, s, steps[0], p) && BenignRun(env, Apply(env, s, steps[0]), steps[1..], p))
  }

  /** A run under the hypotheses for path p. */
  predicate Legal(env: Env, s: System, steps: seq<Step>, p: string) {
    Possible(env, s, steps) && BenignRun(env, s, steps, p)
  }

  predicate TimelyRun(steps: seq<Step>) {
    steps == [] || (Timely(steps[0]) && TimelyRun(steps[1..]))
  }

  lemma {:induction false} TimelyJoin(a: seq<Step>, b: seq<Step>)
    requires TimelyRun(a) && TimelyRun(b)
    ensures TimelyRun(a + b)
  {
    if a == [] {
      assert a + b == b;
    } else {
      assert (a + b)[1..] == a[1..] + b;
      TimelyJoin(a[1..], b);
    }
  }

  function Run(env: Env, s: System, steps: seq<Step>): System
    requires Possible(env, s, steps)
    decreases |steps|
  {
    if steps == [] then s else Run(env, Apply(env, s, steps[0]), steps[1..])
  }

  lemma {:induction false} RunSplit(env: Env, s: System, a: seq<Step>, b: seq<Step>)
    requires Possible(env, s, a) && Possible(env, Run(env, s, a), b)
    ensures Possible(env, s, a + b) && Run(env, s, a + b) == Run(env, Run(env, s, a), b)
    decreases |a|
  {
    if a == [] {
      assert a + b == b;
    } else {
      assert (a + b)[1..] == a[1..] + b;
      RunSplit(env, Apply(env, s, a[0]), a[1..], b);
    }
  }

  /** Runs under the hypotheses can be put one after the other. */
  lemma {:induction false} LegalJoin(env: Env, s: System, a: seq<Step>, b: seq<Step>, p: string)
    requires Legal(env, s, a, p) && Legal(env, Run(env, s, a), b, p)
    ensures Legal(env, s, a + b, p) && Run(env, s, a + b) == Run(env, Run(env, s, a), b)
    decreases |a|
  {
    if a == [] {
      assert a + b == b;
    } else {
      assert (a + b)[1..] == a[1..] + b;
      LegalJoin(env, Apply(env, s, a[0]), a[1..], b, p);
    }
  }

  lemma OneStep(env: Env, s: System, step: Step)
    requires Enabled(env, s, step)
    ensures Possible(env, s, [step]) && Run(env, s, [step]) == Apply(env, s, step)
    ensures forall p :: Benign(env, s, step, p) ==> Legal(env, s, [step], p)
  {
    assert [step][1..] == [];
    forall p | Benign(env, s, step, p) ensures Legal(env, s, [step], p) {
      assert BenignRun(env, Apply(env, s, step), [step][1..], p);
    }
  }
}
