/**
 * What a run has done to one session, read off its steps: the bytes the session was fed, took from its pipe and wrote,
 * and what the query that primed it said. The session is exactly what these accounts make it.
 */
module ProtocolLedger {
  import opened Wrappers
  import opened FileBytes
  import opened Protocol
  import opened ProtocolShape
  import opened ProtocolSafety
  import opened ProtocolRuns
  import opened ProtocolHome
  import SF = ServerFile
  import W = Worker

  // ----- the entries of one step -----

  /** The bytes a step sends into the open pipe of session id. */
  function FedBy(env: Env, s: System, step: Step, id: nat): Bytes
    requires Enabled(env, s, step)
  {
    match step
    case DoDeliver(i) =>
      var a := s.attempts[i];
      if HasSession(s.server, a.client) && s.server.active[a.client] == id && s.server.sessions[id].pipeOpen
      then a.wire[0].data else []
    case _ => []
  }

  /** The bytes a step takes out of the pipe of session id: the k of its DoTake are their number. */
  function TakenBy(env: Env, s: System, step: Step, id: nat): Bytes
    requires Enabled(env, s, step)
  {
    match step
    case DoTake(j, k) => if j == id then s.server.sessions[id].pipe[..k] else []
    case _ => []
  }

  /** The bytes a step writes through the handle of session id. */
  function WrittenBy(env: Env, s: System, step: Step, id: nat): Bytes
    requires Enabled(env, s, step)
  {
    match step
    case DoFlush(j, k) => if j == id then s.server.sessions[id].buffer[..k] else []
    case _ => []
  }

  // ----- the accounts of a run -----

  function Fed(env: Env, s: System, steps: seq<Step>, id: nat): Bytes
    requires Possible(env, s, steps)
    decreases |steps|
  {
    if steps == [] then [] else FedBy(env, s, steps[0], id) + Fed(env, Apply(env, s, steps[0]), steps[1..], id)
  }

  function TakenOut(env: Env, s: System, steps: seq<Step>, id: nat): Bytes
    requires Possible(env, s, steps)
    decreases |steps|
  {
    if steps == [] then [] else TakenBy(env, s, steps[0], id) + TakenOut(env, Apply(env, s, steps[0]), steps[1..], id)
  }

  function Written(env: Env, s: System, steps: seq<Step>, id: nat): Bytes
    requires Possible(env, s, steps)
    decreases |steps|
  {
    if steps == [] then [] else WrittenBy(env, s, steps[0], id) + Written(env, Apply(env, s, steps[0]), steps[1..], id)
  }

  // ----- what a session holds -----

  function BufferOf(server: Server, id: nat): Bytes {
    if id in server.sessions then server.sessions[id].buffer else []
  }

  function PipeOf(server: Server, id: nat): Bytes {
    if id in server.sessions then server.sessions[id].pipe else []
  }

  function CopiedOf(server: Server, id: nat): nat {
    if id in server.sessions then server.sessions[id].copied else 0
  }

  predicate PipeClosed(server: Server, id: nat) {
    id in server.sessions && !server.sessions[id].pipeOpen
  }

  // ----- one step -----

  /** What one step enters into the accounts of a session is what it changes of it. */
  ghost predicate Balanced(env: Env, s: System, step: Step, t: System, id: nat)
    requires Enabled(env, s, step)
  {
    && BufferOf(s.server, id) + TakenBy(env, s, step, id) == WrittenBy(env, s, step, id) + BufferOf(t.server, id)
    && CopiedOf(t.server, id) == CopiedOf(s.server, id) + |WrittenBy(env, s, step, id)|
    && TakenBy(env, s, step, id) + PipeOf(t.server, id) <= PipeOf(s.server, id) + FedBy(env, s, step, id)
    && (TakenBy(env, s, step, id) + PipeOf(t.server, id) == PipeOf(s.server, id) + FedBy(env, s, step, id)
        || PipeClosed(t.server, id))
  }

  /** A step that neither feeds, nor reads, nor writes, nor closes the session. */
  lemma QuietBalanced(env: Env, s: System, step: Step, t: System, id: nat)
    requires Enabled(env, s, step)
    requires FedBy(env, s, step, id) == [] && TakenBy(env, s, step, id) == [] && WrittenBy(env, s, step, id) == []
    requires BufferOf(t.server, id) == BufferOf(s.server, id) && PipeOf(t.server, id) == PipeOf(s.server, id)
    requires CopiedOf(t.server, id) == CopiedOf(s.server, id)
    ensures Balanced(env, s, step, t, id)
  {
    assert BufferOf(s.server, id) + [] == [] + BufferOf(s.server, id);
    assert [] + PipeOf(s.server, id) == PipeOf(s.server, id) + [];
  }

  lemma AskBalanced(env: Env, s: System, client: string, path: string, meta: QueryMeta, id: nat)
    requires Base(env, s) && Enabled(env, s, DoQuery(client, path, meta))
    ensures Balanced(env, s, DoQuery(client, path, meta), Apply(env, s, DoQuery(client, path, meta)), id)
  {
    var step := DoQuery(client, path, meta);
    if Known(env, s.server, path) {
      HitHolds(env, s.server, |s.attempts|, client, path, env.hash(env.content[path]), |env.content[path]|, meta, id);
    }
    QuietBalanced(env, s, step, Apply(env, s, step), id);
  }

  lemma HitHolds(env: Env, a: Server, n: nat, client: string, q: string, key: string, size: nat, meta: QueryMeta, id: nat)
    requires key in a.db && n !in a.sessions
    ensures var b := QueryHit(env, a, n, client, q, key, size, meta).0;
            BufferOf(b, id) == BufferOf(a, id) && PipeOf(b, id) == PipeOf(a, id) && CopiedOf(b, id) == CopiedOf(a, id)
  {
  }

  lemma MissBalanced(env: Env, s: System, i: nat, meta: QueryMeta, id: nat)
    requires Base(env, s) && Enabled(env, s, DoMiss(i, meta))
    ensures Balanced(env, s, DoMiss(i, meta), Apply(env, s, DoMiss(i, meta)), id)
  {
    var a := s.attempts[i];
    MissHolds(env, s.server, i, a.client, a.path, env.hash(env.content[a.path]), |env.content[a.path]|, meta, id);
    QuietBalanced(env, s, DoMiss(i, meta), Apply(env, s, DoMiss(i, meta)), id);
  }

  lemma MissHolds(env: Env, a: Server, n: nat, client: string, q: string, key: string, size: nat, meta: QueryMeta, id: nat)
    requires n !in a.sessions
    ensures var b := QueryMiss(env, a, n, client, q, key, size, meta).0;
            BufferOf(b, id) == BufferOf(a, id) && PipeOf(b, id) == PipeOf(a, id) && CopiedOf(b, id) == CopiedOf(a, id)
  {
    RemoveLeaves(a, q, id);
  }

  lemma DeliverBalanced(env: Env, s: System, i: nat, id: nat)
    requires Base(env, s) && Enabled(env, s, DoDeliver(i))
    ensures Balanced(env, s, DoDeliver(i), Apply(env, s, DoDeliver(i)), id)
  {
    var a := s.attempts[i];
    if HasSession(s.server, a.client) && s.server.active[a.client] == id {
      FedHolds(s.server.sessions[id], a.wire[0]);
      assert BufferOf(s.server, id) + [] == [] + BufferOf(s.server, id);
      assert [] + PipeOf(Apply(env, s, DoDeliver(i)).server, id) == PipeOf(s.server, id) + FedBy(env, s, DoDeliver(i), id);
    } else {
      QuietBalanced(env, s, DoDeliver(i), Apply(env, s, DoDeliver(i)), id);
    }
  }

  lemma FedHolds(f: Session, chunk: Chunk)
    ensures var g := Feed(f, chunk);
            && g.buffer == f.buffer && g.copied == f.copied && g.pipeOpen == f.pipeOpen
            && g.pipe == f.pipe + if f.pipeOpen then chunk.data else []
  {
    assert f.pipe + [] == f.pipe;
  }

  lemma CloseBalanced(env: Env, s: System, client: string, id: nat)
    requires Base(env, s)
    ensures Balanced(env, s, DoClose(client), Apply(env, s, DoClose(client)), id)
  {
    var t := Apply(env, s, DoClose(client));
    if HasSession(s.server, client) && s.server.active[client] == id {
      ClosedBalanced(env, s, client, t, id, s.server.sessions[id]);
    } else {
      QuietBalanced(env, s, DoClose(client), t, id);
    }
  }

  /** A close drops what is in the pipe, and nothing else. */
  lemma ClosedBalanced(env: Env, s: System, client: string, t: System, id: nat, f: Session)
    requires id in s.server.sessions && f == s.server.sessions[id] && t.server == PutSession(s.server, id, ClosePipe(f))
    ensures Balanced(env, s, DoClose(client), t, id)
  {
    assert f.buffer + [] == [] + f.buffer;
  }

  lemma TakeBalanced(env: Env, s: System, j: nat, k: nat, id: nat)
    requires Enabled(env, s, DoTake(j, k))
    ensures Balanced(env, s, DoTake(j, k), Apply(env, s, DoTake(j, k)), id)
  {
    if j == id {
      var f := s.server.sessions[id];
      assert [] + f.pipe[..k] == f.pipe[..k] + [] == f.pipe[..k];
      assert f.pipe[..k] + f.pipe[k..] == f.pipe + [] == f.pipe;
    } else {
      QuietBalanced(env, s, DoTake(j, k), Apply(env, s, DoTake(j, k)), id);
    }
  }

  lemma FlushBalanced(env: Env, s: System, j: nat, k: nat, id: nat)
    requires Enabled(env, s, DoFlush(j, k))
    ensures Balanced(env, s, DoFlush(j, k), Apply(env, s, DoFlush(j, k)), id)
  {
    FlushParts(s.server, j, k);
    if j == id {
      var f := s.server.sessions[id];
      assert f.buffer + [] == f.buffer[..k] + f.buffer[k..];
      assert [] + f.pipe == f.pipe + [];
    } else {
      QuietBalanced(env, s, DoFlush(j, k), Apply(env, s, DoFlush(j, k)), id);
    }
  }

  lemma FinishBalanced(env: Env, s: System, j: nat, id: nat)
    requires Enabled(env, s, DoFinish(j))
    ensures Balanced(env, s, DoFinish(j), Apply(env, s, DoFinish(j)), id)
  {
    FinishSessions(env, s.server, j);
    QuietBalanced(env, s, DoFinish(j), Apply(env, s, DoFinish(j)), id);
  }

  lemma OpenBalanced(env: Env, s: System, j: nat, id: nat)
    requires Enabled(env, s, DoOpen(j))
    ensures Balanced(env, s, DoOpen(j), Apply(env, s, DoOpen(j)), id)
  {
    QuietBalanced(env, s, DoOpen(j), Apply(env, s, DoOpen(j)), id);
  }

  /** A writer that changes its phase and its position only. */
  lemma PhaseBalanced(env: Env, s: System, step: Step, t: System, g: Session, id: nat)
    requires Enabled(env, s, step) && (step.DoWait? || step.DoSeek? || step.DoFail?)
    requires t.server == PutSession(s.server, step.id, g) && step.id in s.server.sessions
    requires var f := s.server.sessions[step.id]; g.buffer == f.buffer && g.pipe == f.pipe && g.copied == f.copied
    ensures Balanced(env, s, step, t, id)
  {
    QuietBalanced(env, s, step, t, id);
  }

  lemma StepBalanced(env: Env, s: System, step: Step, id: nat)
    requires Base(env, s) && Enabled(env, s, step)
    ensures Balanced(env, s, step, Apply(env, s, step), id)
  {
    match step
    case DoQuery(client, path, meta) => AskBalanced(env, s, client, path, meta, id);
    case DoMiss(i, meta) => MissBalanced(env, s, i, meta, id);
    case DoDeliver(i) => DeliverBalanced(env, s, i, id);
    case DoClose(client) => CloseBalanced(env, s, client, id);
    case DoTake(j, k) => TakeBalanced(env, s, j, k, id);
    case DoFlush(j, k) => FlushBalanced(env, s, j, k, id);
    case DoBegin(_, _) => QuietBalanced(env, s, step, Apply(env, s, step), id);
    case DoSend(_, _) => QuietBalanced(env, s, step, Apply(env, s, step), id);
    case DoCut(_) => QuietBalanced(env, s, step, Apply(env, s, step), id);
    case DoEnd(_, _) => QuietBalanced(env, s, step, Apply(env, s, step), id);
    case DoOpen(j) => OpenBalanced(env, s, j, id);
    case DoFinish(j) => FinishBalanced(env, s, j, id);
    case _ => PhaseBalanced(env, s, step, Apply(env, s, step), Apply(env, s, step).server.sessions[step.id], id);
  }

  // ----- what no step changes of a session -----

  predicate SameQuery(f: Session, g: Session) {
    RecordOf(f).(currentSize := 0) == RecordOf(g).(currentSize := 0) && f.key == g.key
  }

  predicate Stopped(f: Session) {
    f.phase in {Done, Failed}
  }

  /** A session later: it speaks of the same query, a closed pipe is not opened again, and a writer that is over stays so. */
  predicate Later(f: Session, g: Session) {
    SameQuery(f, g) && (!f.pipeOpen ==> !g.pipeOpen) && (Stopped(f) ==> g.phase == f.phase)
  }

  ghost predicate GoesOn(a: Server, b: Server, id: nat) {
    id in a.sessions && id in b.sessions && Later(a.sessions[id], b.sessions[id])
  }

  /** A query has no session before it is answered. */
  predicate NewQuery(s: System, step: Step) {
    (step.DoQuery? ==> |s.attempts| !in s.server.sessions) && (step.DoMiss? ==> step.attempt !in s.server.sessions)
  }

  lemma QueryIsNew(env: Env, s: System, step: Step)
    requires Base(env, s) && Enabled(env, s, step)
    ensures NewQuery(s, step)
  {
  }

  lemma AskGoesOn(env: Env, s: System, client: string, path: string, meta: QueryMeta, id: nat)
    requires path in env.content && |s.attempts| !in s.server.sessions && id in s.server.sessions
    ensures GoesOn(s.server, Ask(env, s, client, path, meta).server, id)
  {
    if Known(env, s.server, path) {
      HitSession(env, s.server, |s.attempts|, client, path, env.hash(env.content[path]), |env.content[path]|, meta);
    }
  }

  lemma MissGoesOn(env: Env, a: Server, n: nat, b: Attempt, meta: QueryMeta, id: nat)
    requires b.path in env.content && n !in a.sessions && id in a.sessions
    ensures GoesOn(a, QueryMiss(env, a, n, b.client, b.path, env.hash(env.content[b.path]), |env.content[b.path]|, meta).0, id)
  {
    RemoveLeaves(a, b.path, id);
  }

  lemma DeliverGoesOn(a: Server, client: string, chunk: Chunk, id: nat)
    requires id in a.sessions
    ensures GoesOn(a, Transfer(a, client, chunk), id)
  {
  }

  lemma CloseGoesOn(a: Server, client: string, id: nat)
    requires id in a.sessions
    ensures GoesOn(a, Close(a, client), id)
  {
  }

  lemma FlushGoesOn(a: Server, j: nat, k: nat, id: nat)
    requires j in a.sessions && k <= |a.sessions[j].buffer| && id in a.sessions
    ensures GoesOn(a, Flush(a, j, k), id)
  {
    FlushParts(a, j, k);
  }

  lemma FinishGoesOn(env: Env, a: Server, j: nat, id: nat)
    requires j in a.sessions && id in a.sessions && !Stopped(a.sessions[j])
    ensures GoesOn(a, Finish(env, a, j), id)
  {
    FinishSessions(env, a, j);
  }

  lemma OpenGoesOn(a: Server, j: nat, id: nat)
    requires j in a.sessions && id in a.sessions && !Stopped(a.sessions[j])
    ensures GoesOn(a, OpenFile(a, j), id)
  {
  }

  lemma PutGoesOn(a: Server, j: nat, g: Session, id: nat)
    requires j in a.sessions && id in a.sessions && Later(a.sessions[j], g)
    ensures GoesOn(a, PutSession(a, j, g), id)
  {
  }

  /** No step makes a session speak of another query, opens its pipe again, or revives its writer. */
  lemma StepGoesOn(env: Env, s: System, step: Step, id: nat)
    requires Base(env, s) && Enabled(env, s, step) && id in s.server.sessions
    ensures GoesOn(s.server, Apply(env, s, step).server, id)
  {
    QueryIsNew(env, s, step);
    AnyStepGoesOn(env, s, step, id);
  }

  lemma AnyStepGoesOn(env: Env, s: System, step: Step, id: nat)
    requires NewQuery(s, step) && Enabled(env, s, step) && id in s.server.sessions
    ensures GoesOn(s.server, Apply(env, s, step).server, id)
  {
    match step
    case DoQuery(client, path, meta) => AskGoesOn(env, s, client, path, meta, id);
    case DoMiss(i, meta) => MissGoesOn(env, s.server, i, s.attempts[i], meta, id);
    case DoDeliver(i) => DeliverGoesOn(s.server, s.attempts[i].client, s.attempts[i].wire[0], id);
    case DoClose(client) => CloseGoesOn(s.server, client, id);
    case DoBegin(_, _) => ClientGoesOn(env, s, step, id);
    case DoSend(_, _) => ClientGoesOn(env, s, step, id);
    case DoCut(_) => ClientGoesOn(env, s, step, id);
    case DoEnd(_, _) => ClientGoesOn(env, s, step, id);
    case _ => WriterGoesOn(env, s, step, id);
  }

  lemma ClientGoesOn(env: Env, s: System, step: Step, id: nat)
    requires Enabled(env, s, step) && id in s.server.sessions
    requires step.DoBegin? || step.DoSend? || step.DoCut? || step.DoEnd?
    ensures GoesOn(s.server, Apply(env, s, step).server, id)
  {
    assert Apply(env, s, step).server == s.server;
  }

  lemma WriterGoesOn(env: Env, s: System, step: Step, id: nat)
    requires Enabled(env, s, step) && id in s.server.sessions
    requires step.DoOpen? || step.DoWait? || step.DoSeek? || step.DoTake? || step.DoFlush? || step.DoFinish? || step.DoFail?
    ensures GoesOn(s.server, Apply(env, s, step).server, id)
  {
    match step
    case DoOpen(j) => OpenGoesOn(s.server, j, id);
    case DoFlush(j, k) => FlushGoesOn(s.server, j, k, id);
    case DoFinish(j) => FinishGoesOn(env, s.server, j, id);
    case DoWait(j) => PutGoesOn(s.server, j, s.server.sessions[j].(phase := Waiting), id);
    case DoSeek(j) => PutGoesOn(s.server, j, Sought(s.server.sessions[j]), id);
    case DoTake(j, k) => PutGoesOn(s.server, j, Taken(s.server.sessions[j], k), id);
    case DoFail(j) => PutGoesOn(s.server, j, s.server.sessions[j].(phase := Failed), id);
  }

  // ----- whose session a step changes -----

  /** A step of the writer thread of session id. */
  predicate WriterStep(step: Step, id: nat) {
    match step
    case DoOpen(j) => j == id
    case DoWait(j) => j == id
    case DoSeek(j) => j == id
    case DoTake(j, k) => j == id
    case DoFlush(j, k) => j == id
    case DoFinish(j) => j == id
    case DoFail(j) => j == id
    case _ => false
  }

  /** The step is for session id: a step of its writer, or a chunk or a close for the client whose current session it is. */
  predicate ConcernsSession(s: System, step: Step, id: nat) {
    match step
    case DoDeliver(i) =>
      i < |s.attempts| && HasSession(s.server, s.attempts[i].client) && s.server.active[s.attempts[i].client] == id
    case DoClose(client) => HasSession(s.server, client) && s.server.active[client] == id
    case _ => WriterStep(step, id)
  }

  /** The session is as it was, but for the name that a first query may take from its file. */
  ghost predicate Untouched(a: Server, b: Server, id: nat) {
    id in a.sessions && id in b.sessions && b.sessions[id].(linked := true) == a.sessions[id].(linked := true)
    && (b.sessions[id].linked ==> a.sessions[id].linked)
  }

  lemma MissUntouched(env: Env, a: Server, n: nat, b: Attempt, meta: QueryMeta, id: nat)
    requires b.path in env.content && n !in a.sessions && id in a.sessions
    ensures Untouched(a, QueryMiss(env, a, n, b.client, b.path, env.hash(env.content[b.path]), |env.content[b.path]|, meta).0, id)
  {
    RemoveLeaves(a, b.path, id);
  }

  lemma AskUntouched(env: Env, s: System, client: string, path: string, meta: QueryMeta, id: nat)
    requires path in env.content && |s.attempts| !in s.server.sessions && id in s.server.sessions
    ensures Untouched(s.server, Ask(env, s, client, path, meta).server, id)
  {
    if Known(env, s.server, path) {
      HitSession(env, s.server, |s.attempts|, client, path, env.hash(env.content[path]), |env.content[path]|, meta);
    }
  }

  lemma WriterUntouched(env: Env, s: System, step: Step, id: nat)
    requires Enabled(env, s, step) && id in s.server.sessions && !WriterStep(step, id)
    requires step.DoOpen? || step.DoWait? || step.DoSeek? || step.DoTake? || step.DoFlush? || step.DoFinish? || step.DoFail?
    ensures Untouched(s.server, Apply(env, s, step).server, id)
  {
    if step.DoFlush? {
      FlushParts(s.server, step.id, step.k);
    } else if step.DoFinish? {
      FinishSessions(env, s.server, step.id);
    }
  }

  lemma DeliverUntouched(a: Server, client: string, chunk: Chunk, id: nat)
    requires id in a.sessions && !(HasSession(a, client) && a.active[client] == id)
    ensures Untouched(a, Transfer(a, client, chunk), id)
  {
  }

  lemma CloseUntouched(a: Server, client: string, id: nat)
    requires id in a.sessions && !(HasSession(a, client) && a.active[client] == id)
    ensures Untouched(a, Close(a, client), id)
  {
  }

  lemma ClientUntouched(env: Env, s: System, step: Step, id: nat)
    requires Enabled(env, s, step) && id in s.server.sessions
    requires step.DoBegin? || step.DoSend? || step.DoCut? || step.DoEnd?
    ensures Untouched(s.server, Apply(env, s, step).server, id)
  {
    assert Apply(env, s, step).server == s.server;
  }

  /** No step touches a session that it is not for: a close or a chunk of one client leaves those of all others alone. */
  lemma OthersUntouched(env: Env, s: System, step: Step, id: nat)
    requires Base(env, s) && Enabled(env, s, step) && id in s.server.sessions && !ConcernsSession(s, step, id)
    ensures Untouched(s.server, Apply(env, s, step).server, id)
  {
    QueryIsNew(env, s, step);
    AnyOtherUntouched(env, s, step, id);
  }

  lemma AnyOtherUntouched(env: Env, s: System, step: Step, id: nat)
    requires NewQuery(s, step) && Enabled(env, s, step) && id in s.server.sessions && !ConcernsSession(s, step, id)
    ensures Untouched(s.server, Apply(env, s, step).server, id)
  {
    match step
    case DoQuery(client, path, meta) => AskUntouched(env, s, client, path, meta, id);
    case DoMiss(i, meta) => MissUntouched(env, s.server, i, s.attempts[i], meta, id);
    case DoDeliver(i) => DeliverUntouched(s.server, s.attempts[i].client, s.attempts[i].wire[0], id);
    case DoClose(client) => CloseUntouched(s.server, client, id);
    case DoBegin(_, _) => ClientUntouched(env, s, step, id);
    case DoSend(_, _) => ClientUntouched(env, s, step, id);
    case DoCut(_) => ClientUntouched(env, s, step, id);
    case DoEnd(_, _) => ClientUntouched(env, s, step, id);
    case _ => WriterUntouched(env, s, step, id);
  }

  /** Which session a client's chunks and closes are for changes with an answered query of that client only. */
  lemma OthersStayActive(env: Env, s: System, step: Step, client: string)
    requires Enabled(env, s, step)
    requires step.DoQuery? ==> step.client != client
    requires step.DoMiss? ==> s.attempts[step.attempt].client != client
    ensures client in Apply(env, s, step).server.active <==> client in s.server.active
    ensures client in s.server.active ==> Apply(env, s, step).server.active[client] == s.server.active[client]
  {
    match step
    case DoMiss(i, meta) =>
      var (a, c) := (s.attempts[i], env.content[s.attempts[i].path]);
      MissIds(env, s.server, i, a.client, a.path, env.hash(c), |c|, meta);
    case DoFlush(j, k) => FlushParts(s.server, j, k);
    case DoFinish(j) => FinishSessions(env, s.server, j);
    case _ =>
  }

  // ----- whole runs -----

  /** A closed pipe is empty: nothing is fed or taken any more. */
  lemma ClosedIsQuiet(env: Env, s: System, step: Step, id: nat)
    requires Base(env, s) && Enabled(env, s, step) && PipeClosed(s.server, id)
    ensures FedBy(env, s, step, id) == [] && TakenBy(env, s, step, id) == []
  {
    assert ShapeOk(env, s.server.disk, s.server.sessions[id]);
  }

  lemma {:induction false} RunStaysClosed(env: Env, s: System, steps: seq<Step>, id: nat)
    requires Base(env, s) && Possible(env, s, steps) && PipeClosed(s.server, id)
    ensures PipeClosed(Run(env, s, steps).server, id) && PipeOf(Run(env, s, steps).server, id) == []
    ensures Fed(env, s, steps, id) == [] && TakenOut(env, s, steps, id) == []
    decreases |steps|
  {
    if steps == [] {
      assert ShapeOk(env, s.server.disk, s.server.sessions[id]);
    } else {
      StepKeepsBase(env, s, steps[0]);
      StepGoesOn(env, s, steps[0], id);
      ClosedIsQuiet(env, s, steps[0], id);
      RunStaysClosed(env, Apply(env, s, steps[0]), steps[1..], id);
    }
  }

  lemma Chained(b0: Bytes, t1: Bytes, w1: Bytes, b1: Bytes, t2: Bytes, w2: Bytes, b2: Bytes)
    requires b0 + t1 == w1 + b1 && b1 + t2 == w2 + b2
    ensures b0 + (t1 + t2) == w1 + w2 + b2
  {
    assert b0 + (t1 + t2) == b0 + t1 + t2 == w1 + (b1 + t2);
  }

  lemma ChainedPipe(p0: Bytes, f1: Bytes, t1: Bytes, p1: Bytes, f2: Bytes, t2: Bytes, p2: Bytes, closed: bool)
    requires t1 + p1 == p0 + f1 || (t1 + p1 <= p0 + f1 && closed && f2 == [] && t2 == [] && p2 == [])
    requires t2 + p2 == p1 + f2 || (t2 + p2 <= p1 + f2 && closed)
    ensures t1 + t2 + p2 == p0 + (f1 + f2) || (t1 + t2 + p2 <= p0 + (f1 + f2) && closed)
  {
    if t1 + p1 == p0 + f1 {
      assert p0 + (f1 + f2) == p0 + f1 + f2 == t1 + (p1 + f2);
      assert t1 + t2 + p2 == t1 + (t2 + p2);
    } else {
      assert t1 + t2 + p2 == t1 && t1 <= t1 + p1;
      assert p0 + (f1 + f2) == p0 + f1;
    }
  }

  /** The accounts of a run, from any state with sound shapes. */
  lemma {:induction false} RunBalanced(env: Env, s: System, steps: seq<Step>, id: nat)
    requires Base(env, s) && Possible(env, s, steps)
    ensures var t := Run(env, s, steps);
            && BufferOf(s.server, id) + TakenOut(env, s, steps, id) == Written(env, s, steps, id) + BufferOf(t.server, id)
            && CopiedOf(t.server, id) == CopiedOf(s.server, id) + |Written(env, s, steps, id)|
            && (TakenOut(env, s, steps, id) + PipeOf(t.server, id) == PipeOf(s.server, id) + Fed(env, s, steps, id)
                || (TakenOut(env, s, steps, id) + PipeOf(t.server, id) <= PipeOf(s.server, id) + Fed(env, s, steps, id)
                    && PipeClosed(t.server, id)))
    decreases |steps|
  {
    if steps == [] {
      assert BufferOf(s.server, id) + [] == [] + BufferOf(s.server, id);
      assert [] + PipeOf(s.server, id) == PipeOf(s.server, id) + [];
    } else {
      var (step, u, t) := (steps[0], Apply(env, s, steps[0]), Run(env, s, steps));
      StepKeepsBase(env, s, step);
      StepBalanced(env, s, step, id);
      RunBalanced(env, u, steps[1..], id);
      if PipeClosed(u.server, id) {
        RunStaysClosed(env, u, steps[1..], id);
      }
      Chained(BufferOf(s.server, id), TakenBy(env, s, step, id), WrittenBy(env, s, step, id), BufferOf(u.server, id),
              TakenOut(env, u, steps[1..], id), Written(env, u, steps[1..], id), BufferOf(t.server, id));
      ChainedPipe(PipeOf(s.server, id), FedBy(env, s, step, id), TakenBy(env, s, step, id), PipeOf(u.server, id),
                  Fed(env, u, steps[1..], id), TakenOut(env, u, steps[1..], id), PipeOf(t.server, id), PipeClosed(t.server, id));
    }
  }

  /**
   * Conservation of bytes, in every run: what a session took from its pipe is what it has written, in order, and what is
   * in its copy buffer, so no close, failure or removal loses a byte once it has been read; and what it was fed is what it
   * took and what is in its pipe, but for what was in the pipe when that was closed.
   */
  lemma BytesConserved(env: Env, start: System, steps: seq<Step>, id: nat)
    requires Started(start) && Possible(env, start, steps) && id in Run(env, start, steps).server.sessions
    ensures var f := Run(env, start, steps).server.sessions[id];
            && TakenOut(env, start, steps, id) == Written(env, start, steps, id) + f.buffer
            && |TakenOut(env, start, steps, id)| == f.copied + |f.buffer|
            && TakenOut(env, start, steps, id) + f.pipe <= Fed(env, start, steps, id)
            && (f.pipeOpen ==> TakenOut(env, start, steps, id) + f.pipe == Fed(env, start, steps, id))
  {
    RunBalanced(env, start, steps, id);
    assert [] + TakenOut(env, start, steps, id) == TakenOut(env, start, steps, id);
    assert [] + Fed(env, start, steps, id) == Fed(env, start, steps, id);
  }

  lemma StoppedIsQuiet(env: Env, s: System, step: Step, id: nat)
    requires Enabled(env, s, step) && id in s.server.sessions && Stopped(s.server.sessions[id])
    ensures WrittenBy(env, s, step, id) == [] && TakenBy(env, s, step, id) == []
  {
  }

  /** A writer that has failed or ended stays so, and reads and writes nothing more, in any run. */
  lemma {:induction false} StoppedWritesNothing(env: Env, s: System, steps: seq<Step>, id: nat)
    requires Base(env, s) && id in s.server.sessions && Stopped(s.server.sessions[id]) && Possible(env, s, steps)
    ensures id in Run(env, s, steps).server.sessions
    ensures Run(env, s, steps).server.sessions[id].phase == s.server.sessions[id].phase
    ensures Written(env, s, steps, id) == [] && TakenOut(env, s, steps, id) == []
    decreases |steps|
  {
    if steps != [] {
      StepKeepsBase(env, s, steps[0]);
      StepGoesOn(env, s, steps[0], id);
      StoppedIsQuiet(env, s, steps[0], id);
      StoppedWritesNothing(env, Apply(env, s, steps[0]), steps[1..], id);
    }
  }

  /**
   * Nothing that can go wrong is excluded: closes and queries at any time, a writer that fails at any moment before its end
   * and leaves all files as they are, a connection that dies under any stream, a local copy that fails in the middle of
   * one, and any outcome of the local calls of a job.
   */
  lemma FailuresAreFree(env: Env, s: System, client: string, path: string, meta: QueryMeta, id: nat, i: nat, io: W.LocalIO)
    requires path in env.content && id in s.server.sessions && i < |s.attempts| && s.attempts[i].path in env.content
    ensures Enabled(env, s, DoClose(client)) && Enabled(env, s, DoQuery(client, path, meta))
    ensures s.server.sessions[id].phase != Done ==>
              && Enabled(env, s, DoFail(id)) && Stopped(Apply(env, s, DoFail(id)).server.sessions[id])
              && Apply(env, s, DoFail(id)).server.disk == s.server.disk && Apply(env, s, DoFail(id)).server.db == s.server.db
    ensures s.attempts[i].phase.Streaming? ==> Enabled(env, s, DoCut(i)) && Enabled(env, s, DoEnd(i, true))
    ensures s.attempts[i].phase.Ended? ==> Enabled(env, s, DoCut(i))
    ensures s.attempts[i].phase == Replied && s.attempts[i].reply.Reply? ==> Enabled(env, s, DoBegin(i, io))
  {
  }

  // ----- what a close spares -----

  predicate WriterSteps(steps: seq<Step>, id: nat) {
    forall k :: 0 <= k < |steps| ==> WriterStep(steps[k], id)
  }

  /** A closed session that still has to write what it has read: then its file will be `whole` and its position `end`. */
  predicate Flushing(a: Server, id: nat, p: string, whole: Bytes, end: nat) {
    && id in a.sessions && p in a.disk
    && var f := a.sessions[id];
       && f.phase == Writing && f.linked && f.path == p && !f.pipeOpen && f.pipe == []
       && f.position == f.currentSize + f.copied && f.position + |f.buffer| == end
       && WriteAt(a.disk[p], f.position, f.buffer) == whole
  }

  predicate WriterOver(a: Server, id: nat) {
    id in a.sessions && a.sessions[id].phase in {Done, Failed}
  }

  lemma FlushingFlush(a: Server, id: nat, k: nat, p: string, whole: Bytes, end: nat)
    requires Flushing(a, id, p, whole, end) && k <= |a.sessions[id].buffer|
    ensures Flushing(Flush(a, id, k), id, p, whole, end)
  {
    var f := a.sessions[id];
    var next := RestWritten(a.disk[p], f.position, f.buffer, k, whole);
    FlushedInto(a, id, k, p, f, next, whole, end);
  }

  /** Writing the rest behind the first k bytes makes the same whole. */
  lemma RestWritten(file: Bytes, at: nat, data: Bytes, k: nat, whole: Bytes) returns (next: Bytes)
    requires k <= |data| && WriteAt(file, at, data) == whole
    ensures next == WriteAt(file, at, data[..k]) && WriteAt(next, at + k, data[k..]) == whole
  {
    assert data == data[..k] + data[k..];
    var both;
    next, both := WriteTwice(file, at, data[..k], at + k, data[k..], data);
  }

  lemma FlushedInto(a: Server, id: nat, k: nat, p: string, f: Session, next: Bytes, whole: Bytes, end: nat)
    requires Flushing(a, id, p, whole, end) && f == a.sessions[id] && k <= |f.buffer|
    requires next == WriteAt(a.disk[p], f.position, f.buffer[..k])
    requires WriteAt(next, f.position + k, f.buffer[k..]) == whole
    ensures Flushing(Flush(a, id, k), id, p, whole, end)
  {
    var b := Flush(a, id, k);
    assert b.disk[p] == next && b.sessions[id] == Flushed(f, k);
  }

  lemma FlushingStep(env: Env, s: System, step: Step, id: nat, p: string, whole: Bytes, end: nat)
    requires Flushing(s.server, id, p, whole, end) && Enabled(env, s, step) && WriterStep(step, id)
    ensures Flushing(Apply(env, s, step).server, id, p, whole, end) || WriterOver(Apply(env, s, step).server, id)
  {
    if step.DoFlush? {
      FlushingFlush(s.server, id, step.k, p, whole, end);
    } else if step.DoFinish? {
      FinishSessions(env, s.server, id);
    }
  }

  lemma OverStep(env: Env, s: System, step: Step, id: nat)
    requires WriterOver(s.server, id) && Enabled(env, s, step) && WriterStep(step, id)
    ensures WriterOver(Apply(env, s, step).server, id)
  {
  }

  lemma {:induction false} OverRun(env: Env, s: System, steps: seq<Step>, id: nat)
    requires WriterOver(s.server, id) && Possible(env, s, steps) && WriterSteps(steps, id)
    ensures WriterOver(Run(env, s, steps).server, id)
    decreases |steps|
  {
    if steps != [] {
      OverStep(env, s, steps[0], id);
      OverRun(env, Apply(env, s, steps[0]), steps[1..], id);
    }
  }

  lemma {:induction false} FlushingRun(env: Env, s: System, steps: seq<Step>, id: nat, p: string, whole: Bytes, end: nat)
    requires Flushing(s.server, id, p, whole, end) && Possible(env, s, steps) && WriterSteps(steps, id)
    ensures Flushing(Run(env, s, steps).server, id, p, whole, end) || WriterOver(Run(env, s, steps).server, id)
    decreases |steps|
  {
    if steps != [] {
      var t := Apply(env, s, steps[0]);
      FlushingStep(env, s, steps[0], id, p, whole, end);
      if WriterOver(t.server, id) {
        OverRun(env, t, steps[1..], id);
      } else {
        FlushingRun(env, t, steps[1..], id, p, whole, end);
      }
    }
  }

  /** The end of the copy, when nothing is left to write. */
  lemma FlushedAll(env: Env, a: Server, id: nat, p: string, whole: Bytes, end: nat)
    requires Flushing(a, id, p, whole, end) && a.sessions[id].buffer == []
    ensures var b := Finish(env, a, id);
            FileOnDisk(b, p) == whole && id in b.sessions && b.sessions[id].currentSize == end % SF.UINT64_LIMIT
  {
    FinishSessions(env, a, id);
  }

  lemma ClosedFlushes(env: Env, s: System, client: string, id: nat, f: Session)
    requires Base(env, s) && HasSession(s.server, client) && s.server.active[client] == id
    requires f == s.server.sessions[id] && f.phase == Writing && f.linked
    ensures Flushing(Close(s.server, client), id, f.path, WriteAt(FileOnDisk(s.server, f.path), f.position, f.buffer),
                     f.position + |f.buffer|)
  {
    assert ShapeOk(env, s.server.disk, f);
  }

  /**
   * A close spares what the writer has read: however the writer of a named file goes on after it, at the end of its copy
   * the file is the old one with the whole copy buffer written at its position, and all of it is counted.
   */
  lemma CloseSparesRead(env: Env, s: System, client: string, id: nat, steps: seq<Step>)
    requires Base(env, s) && HasSession(s.server, client) && s.server.active[client] == id
    requires s.server.sessions[id].phase == Writing && s.server.sessions[id].linked
    requires var c := Apply(env, s, DoClose(client));
             Possible(env, c, steps) && WriterSteps(steps, id) && Enabled(env, Run(env, c, steps), DoFinish(id))
    ensures var f := s.server.sessions[id];
            var t := Apply(env, Run(env, Apply(env, s, DoClose(client)), steps), DoFinish(id));
            && FileOnDisk(t.server, f.path) == WriteAt(FileOnDisk(s.server, f.path), f.position, f.buffer)
            && id in t.server.sessions && t.server.sessions[id].currentSize == (f.position + |f.buffer|) % SF.UINT64_LIMIT
  {
    var f := s.server.sessions[id];
    var (c, whole) := (Apply(env, s, DoClose(client)), WriteAt(FileOnDisk(s.server, f.path), f.position, f.buffer));
    ClosedFlushes(env, s, client, id, f);
    FlushingRun(env, c, steps, id, f.path, whole, f.position + |f.buffer|);
    FlushedAll(env, Run(env, c, steps).server, id, f.path, whole, f.position + |f.buffer|);
  }

  /** And the writer can always go on to there: one write of all it has read, if it has any, and the copy is over. */
  lemma ClosedWriterFinishes(env: Env, s: System, client: string, id: nat) returns (steps: seq<Step>)
    requires Base(env, s) && HasSession(s.server, client) && s.server.active[client] == id
    requires s.server.sessions[id].phase == Writing
    requires s.server.sessions[id].position + |s.server.sessions[id].buffer| < INT63_LIMIT
    ensures var c := Apply(env, s, DoClose(client));
            Possible(env, c, steps) && WriterSteps(steps, id) && Enabled(env, Run(env, c, steps), DoFinish(id))
  {
    steps := WritesRest(env, Apply(env, s, DoClose(client)), id, ClosePipe(s.server.sessions[id]));
  }

  lemma WritesRest(env: Env, c: System, id: nat, f: Session) returns (steps: seq<Step>)
    requires id in c.server.sessions && c.server.sessions[id] == f && f.phase == Writing && !f.pipeOpen
    requires f.position + |f.buffer| < INT63_LIMIT
    ensures Possible(env, c, steps) && WriterSteps(steps, id) && Enabled(env, Run(env, c, steps), DoFinish(id))
  {
    steps := [];
    if f.buffer != [] {
      steps := [DoFlush(id, |f.buffer|)];
      FlushParts(c.server, id, |f.buffer|);
      OneStep(env, c, DoFlush(id, |f.buffer|));
    }
  }
}
