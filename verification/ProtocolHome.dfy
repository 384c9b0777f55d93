/** Streams that reach the session of their own query: their chunks are aligned, and the server counts what they sent. */
module ProtocolHome {
  import opened FileBytes
  import opened Protocol
  import opened ProtocolShape
  import opened ProtocolSafety
  import opened ProtocolRuns
  import W = Worker

  /** A chunk goes to the session its own query primed, or its client has none. */
  predicate Home(env: Env, s: System, step: Step)
    requires Enabled(env, s, step)
  {
    step.DoDeliver? ==>
      var client := s.attempts[step.attempt].client;
      HasSession(s.server, client) ==> s.server.active[client] == step.attempt
  }

  predicate HomeRun(env: Env, s: System, steps: seq<Step>)
    requires Possible(env, s, steps)
    decreases |steps|
  {
    steps == [] || (Home(env, s, steps[0]) && HomeRun(env, Apply(env, s, steps[0]), steps[1..]))
  }

  /** An attempt against the session its query primed: the session has been opened by its first chunk and counts the rest. */
  predicate StreamOk(a: Attempt, f: Session) {
    && f.path == a.path
    && (f.once <==> a.got > 0)
    && (f.once && f.phase in {Signalled, Writing} ==>
          && (a.phase.Streaming? || a.phase.Ended?)
          && f.currentSize == a.phase.start.offset
          && AppendPosition(f) <= a.phase.start.offset + a.got
          && (f.pipeOpen ==> AppendPosition(f) == a.phase.start.offset + a.got))
  }

  ghost predicate Streams(s: System) {
    forall id :: id in s.server.sessions ==>
      id < |s.attempts| && StreamOk(s.attempts[id], s.server.sessions[id]) && s.attempts[id].client in s.server.active
  }

  lemma PutStreams(s: System, id: nat, g: Session)
    requires Streams(s) && id in s.server.sessions && StreamOk(s.attempts[id], g)
    ensures Streams(s.(server := PutSession(s.server, id, g)))
  {
  }

  lemma AttemptStreams(s: System, i: nat, a: Attempt)
    requires Streams(s) && i < |s.attempts| && a.client == s.attempts[i].client
    requires i in s.server.sessions ==> StreamOk(a, s.server.sessions[i])
    ensures Streams(s.(attempts := s.attempts[i := a]))
  {
  }

  lemma PhaseStreams(s: System, i: nat, phase: AttemptPhase)
    requires Streams(s) && i < |s.attempts|
    requires s.attempts[i].got == 0 || (s.attempts[i].phase.Streaming? && phase.Ended? && phase.start == s.attempts[i].phase.start)
    ensures Streams(s.(attempts := s.attempts[i := s.attempts[i].(phase := phase)]))
  {
    AttemptStreams(s, i, s.attempts[i].(phase := phase));
  }

  lemma BeginStreams(env: Env, s: System, i: nat, io: W.LocalIO)
    requires Base(env, s) && Streams(s) && Enabled(env, s, DoBegin(i, io))
    ensures Streams(Apply(env, s, DoBegin(i, io)))
  {
    assert HistoryOk(env, s.attempts[i]);
    PhaseStreams(s, i, Decide(env, s.attempts[i], io));
  }

  /** One more chunk of the attempt, fed to its own session. */
  lemma FeedStream(env: Env, disk: map<string, Bytes>, a: Attempt, f: Session)
    requires ShapeOk(env, disk, f) && StreamOk(a, f) && HistoryOk(env, a) && a.wire != [] && (f.pipeOpen ==> f.pipe == [])
    ensures StreamOk(Received(a), Feed(f, a.wire[0]))
  {
    WireHead(env.content[a.path], a);
    assert [] + a.wire[0].data == a.wire[0].data;
  }

  lemma DeliverStreams(env: Env, s: System, i: nat)
    requires Base(env, s) && Streams(s) && Enabled(env, s, DoDeliver(i)) && Home(env, s, DoDeliver(i))
    ensures Streams(Apply(env, s, DoDeliver(i)))
  {
    var a := s.attempts[i];
    if HasSession(s.server, a.client) {
      var f := s.server.sessions[i];
      assert ShapeOk(env, s.server.disk, f) && HistoryOk(env, a);
      FeedStream(env, s.server.disk, a, f);
      FedStreams(s, i, Received(a), Feed(f, a.wire[0]));
    } else {
      AttemptStreams(s, i, Received(a));
    }
  }

  lemma FedStreams(s: System, i: nat, a: Attempt, g: Session)
    requires Streams(s) && i in s.server.sessions && a.client == s.attempts[i].client && StreamOk(a, g)
    ensures Streams(System(PutSession(s.server, i, g), s.attempts[i := a]))
  {
  }

  lemma CloseStreams(s: System, client: string)
    requires Streams(s)
    ensures Streams(s.(server := Close(s.server, client)))
  {
    if HasSession(s.server, client) {
      PutStreams(s, s.server.active[client], ClosePipe(s.server.sessions[s.server.active[client]]));
    }
  }

  lemma EarlyStream(a: Attempt, f: Session, phase: Phase)
    requires StreamOk(a, f) && phase in {Opened, Waiting, Failed}
    ensures StreamOk(a, f.(phase := phase)) && StreamOk(a, f.(phase := phase, linked := true))
  {
  }

  lemma SoughtStream(a: Attempt, f: Session)
    requires StreamOk(a, f) && f.phase == Signalled && f.buffer == []
    ensures StreamOk(a, Sought(f))
  {
  }

  lemma TakenStream(a: Attempt, f: Session, k: nat)
    requires StreamOk(a, f) && f.phase == Writing && f.buffer == [] && k <= |f.pipe|
    ensures StreamOk(a, Taken(f, k))
  {
  }

  function Flushed(f: Session, k: nat): Session
    requires k <= |f.buffer|
  {
    f.(position := f.position + k, copied := f.copied + k, buffer := f.buffer[k..])
  }

  lemma FlushedStream(a: Attempt, f: Session, k: nat)
    requires StreamOk(a, f) && f.phase == Writing && k <= |f.buffer|
    ensures StreamOk(a, Flushed(f, k))
  {
  }

  lemma CountedStream(a: Attempt, f: Session)
    requires StreamOk(a, f)
    ensures StreamOk(a, Counted(f).(phase := Failed)) && StreamOk(a, Counted(f).(phase := Done))
  {
  }

  lemma WriterStreams(env: Env, s: System, step: Step)
    requires Tidy(env, s.server) && Streams(s) && Enabled(env, s, step)
    requires step.DoOpen? || step.DoWait? || step.DoSeek? || step.DoTake? || step.DoFail? || step.DoFlush? || step.DoFinish?
    ensures Streams(Apply(env, s, step))
  {
    var t := Apply(env, s, step);
    var (id, f, a) := (step.id, s.server.sessions[step.id], s.attempts[step.id]);
    assert ShapeOk(env, s.server.disk, f);
    StreamOfWriter(env, s, step, a, f);
    SessionStreams(s, t, id, t.server.sessions[id]);
  }

  lemma StreamOfWriter(env: Env, s: System, step: Step, a: Attempt, f: Session)
    requires Enabled(env, s, step)
    requires step.DoOpen? || step.DoWait? || step.DoSeek? || step.DoTake? || step.DoFail? || step.DoFlush? || step.DoFinish?
    requires f == s.server.sessions[step.id] && ShapeOk(env, s.server.disk, f) && StreamOk(a, f)
    ensures var t := Apply(env, s, step);
            && t.attempts == s.attempts && t.server.active == s.server.active && step.id in t.server.sessions
            && t.server.sessions == s.server.sessions[step.id := t.server.sessions[step.id]]
            && StreamOk(a, t.server.sessions[step.id])
  {
    match step
    case DoOpen(_) => EarlyStream(a, f, Opened);
    case DoWait(_) => EarlyStream(a, f, Waiting);
    case DoFail(_) => EarlyStream(a, f, Failed);
    case DoSeek(_) => SoughtStream(a, f);
    case DoTake(_, k) => TakenStream(a, f, k);
    case DoFlush(id, k) =>
      FlushParts(s.server, id, k);
      FlushedStream(a, f, k);
    case DoFinish(id) =>
      FinishSessions(env, s.server, id);
      CountedStream(a, f);
  }

  lemma FinishSessions(env: Env, a: Server, id: nat)
    requires id in a.sessions
    ensures var (b, g) := (Finish(env, a, id), Counted(a.sessions[id]));
            && b.active == a.active
            && (b.sessions == a.sessions[id := g.(phase := Failed)] || b.sessions == a.sessions[id := g.(phase := Done)])
  {
  }

  lemma SessionStreams(s: System, t: System, id: nat, g: Session)
    requires Streams(s) && id in s.server.sessions && StreamOk(s.attempts[id], g)
    requires t.attempts == s.attempts && t.server.active == s.server.active
    requires t.server.sessions == s.server.sessions[id := g]
    ensures Streams(t)
  {
  }

  /** What a hit does to the sessions: none of its own, or a new one. */
  lemma HitSession(env: Env, a: Server, id: nat, client: string, q: string, key: string, size: nat, meta: QueryMeta)
    requires key in a.db
    ensures var b := QueryHit(env, a, id, client, q, key, size, meta).0;
            || (b.sessions == a.sessions && b.active == a.active)
            || (id in b.sessions && b.sessions == a.sessions[id := b.sessions[id]] && b.active == a.active[client := id]
                && b.sessions[id].path == q && !b.sessions[id].once && b.sessions[id].phase == Created)
  {
  }

  lemma AppendStreams(s: System, t: System, a: Attempt)
    requires Streams(s) && t.attempts == s.attempts + [a] && a.got == 0
    requires
      || (t.server.sessions == s.server.sessions && t.server.active == s.server.active)
      || (var id := |s.attempts|;
          id in t.server.sessions && t.server.sessions == s.server.sessions[id := t.server.sessions[id]]
          && t.server.active == s.server.active[a.client := id]
          && t.server.sessions[id].path == a.path && !t.server.sessions[id].once && t.server.sessions[id].phase == Created)
    ensures Streams(t)
  {
  }

  lemma HitStreams(env: Env, s: System, client: string, path: string, meta: QueryMeta)
    requires Streams(s) && path in env.content && Known(env, s.server, path)
    ensures Streams(Ask(env, s, client, path, meta))
  {
    var t := Ask(env, s, client, path, meta);
    HitSession(env, s.server, |s.attempts|, client, path, env.hash(env.content[path]), |env.content[path]|, meta);
    AppendStreams(s, t, t.attempts[|s.attempts|]);
  }

  lemma MissStreams(env: Env, s: System, i: nat, meta: QueryMeta)
    requires Base(env, s) && Streams(s) && Enabled(env, s, DoMiss(i, meta))
    ensures Streams(Miss(env, s, i, meta))
  {
    var (a, t) := (s.attempts[i], Miss(env, s, i, meta));
    MissIds(env, s.server, i, a.client, a.path, env.hash(env.content[a.path]), |env.content[a.path]|, meta);
    assert HistoryOk(env, a);
    forall id | id in t.server.sessions
      ensures id < |t.attempts| && StreamOk(t.attempts[id], t.server.sessions[id]) && t.attempts[id].client in t.server.active
    {
      if id != i {
        MissLeaves(env, s.server, i, a, meta, id);
        RenamedStream(s.attempts[id], s.server.sessions[id], t.server.sessions[id]);
      } else {
        MissSession(env, s.server, i, a, meta);
      }
    }
  }

  lemma RenamedStream(a: Attempt, f: Session, g: Session)
    requires StreamOk(a, f) && g.(linked := true) == f.(linked := true)
    ensures StreamOk(a, g)
  {
  }

  lemma MissSession(env: Env, server: Server, i: nat, a: Attempt, meta: QueryMeta)
    requires a.path in env.content && i !in server.sessions
    ensures var b := QueryMiss(env, server, i, a.client, a.path, env.hash(env.content[a.path]), |env.content[a.path]|, meta).0;
            i in b.sessions ==> b.sessions[i].path == a.path && !b.sessions[i].once && b.sessions[i].phase in {Created, Opened}
                                && a.client in b.active
  {
  }

  /** A miss leaves other sessions as they are, but for the name. */
  lemma MissLeaves(env: Env, server: Server, i: nat, a: Attempt, meta: QueryMeta, id: nat)
    requires a.path in env.content && id != i
    ensures var b := QueryMiss(env, server, i, a.client, a.path, env.hash(env.content[a.path]), |env.content[a.path]|, meta).0;
            id in b.sessions ==> id in server.sessions && b.sessions[id].(linked := true) == server.sessions[id].(linked := true)
  {
    RemoveLeaves(server, a.path, id);
  }

  lemma AskStreams(env: Env, s: System, client: string, path: string, meta: QueryMeta)
    requires Streams(s) && path in env.content
    ensures Streams(Ask(env, s, client, path, meta))
  {
    if Known(env, s.server, path) {
      HitStreams(env, s, client, path, meta);
    } else {
      AppendStreams(s, Ask(env, s, client, path, meta), NewAttempt(client, path, meta.mediaPrefix));
    }
  }

  lemma StepKeepsStreams(env: Env, s: System, step: Step)
    requires Base(env, s) && Streams(s) && Enabled(env, s, step) && Home(env, s, step)
    ensures Streams(Apply(env, s, step))
  {
    match step
    case DoQuery(client, path, meta) => AskStreams(env, s, client, path, meta);
    case DoMiss(i, meta) => MissStreams(env, s, i, meta);
    case DoBegin(i, io) => BeginStreams(env, s, i, io);
    case DoEnd(i, copyFails) => PhaseStreams(s, i, Ended(s.attempts[i].phase.start, copyFails));
    case DoSend(i, n) => AttemptStreams(s, i, Sent(env, s.attempts[i], n));
    case DoDeliver(i) => DeliverStreams(env, s, i);
    case DoCut(i) => AttemptStreams(s, i, Cut(s.attempts[i]));
    case DoClose(client) => CloseStreams(s, client);
    case _ => WriterStreams(env, s, step);
  }

  lemma {:induction false} RunKeepsStreams(env: Env, s: System, steps: seq<Step>)
    requires Base(env, s) && Streams(s) && Possible(env, s, steps) && HomeRun(env, s, steps)
    ensures Base(env, Run(env, s, steps)) && Streams(Run(env, s, steps))
    decreases |steps|
  {
    if steps != [] {
      StepKeepsBase(env, s, steps[0]);
      StepKeepsStreams(env, s, steps[0]);
      RunKeepsStreams(env, Apply(env, s, steps[0]), steps[1..]);
    }
  }

  /**
   * Home deliveries are aligned: in every run in which chunks reach the session of their own query, whatever else
   * happens, the next one is benign for a path if and only if it does not start a session behind the end of its file.
   */
  lemma HomeDeliveryExact(env: Env, s: System, i: nat, p: string)
    requires Base(env, s) && Streams(s) && Enabled(env, s, DoDeliver(i)) && Home(env, s, DoDeliver(i))
    ensures Benign(env, s, DoDeliver(i), p) <==>
            (HasSession(s.server, s.attempts[i].client) && s.server.sessions[i].path == p && s.attempts[i].got == 0
             && Heard(s.server.sessions[i]) ==>
               s.attempts[i].phase.start.offset <= |FileOnDisk(s.server, p)|)
  {
    var a := s.attempts[i];
    assert HistoryOk(env, a);
    if HasSession(s.server, a.client) {
      HomeAligned(env, s.server, a, s.server.sessions[i]);
    }
  }

  lemma HomeAligned(env: Env, server: Server, a: Attempt, f: Session)
    requires StreamOk(a, f) && HistoryOk(env, a) && a.wire != []
    ensures f.path == a.path
    ensures Aligned(server, f, a.wire[0].offset) <==>
            (Heard(f) && a.got == 0 ==> a.phase.start.offset <= |FileOnDisk(server, f.path)|)
  {
    WireHead(env.content[a.path], a);
  }

  /**
   * Today's server, which reports no sizes: every run with home deliveries is aligned on every path, whatever fails
   * locally, remotely or on the way, concurrent first queries included.
   */
  lemma {:induction false} HomeRunsAreLegal(env: Env, s: System, steps: seq<Step>, p: string)
    requires !env.reportsSize && Base(env, s) && Streams(s) && Possible(env, s, steps) && HomeRun(env, s, steps)
    ensures Legal(env, s, steps, p)
    decreases |steps|
  {
    if steps != [] {
      StepHomeBenign(env, s, steps[0], p);
      StepKeepsBase(env, s, steps[0]);
      StepKeepsStreams(env, s, steps[0]);
      HomeRunsAreLegal(env, Apply(env, s, steps[0]), steps[1..], p);
    }
  }

  lemma StepHomeBenign(env: Env, s: System, step: Step, p: string)
    requires !env.reportsSize && Base(env, s) && Streams(s) && Enabled(env, s, step) && Home(env, s, step)
    ensures Benign(env, s, step, p)
  {
    match step
    case DoBegin(i, io) => assert HistoryOk(env, s.attempts[i]);
    case DoDeliver(i) =>
      assert HistoryOk(env, s.attempts[i]);
      assert s.attempts[i].phase.start.offset == 0;
      HomeDeliveryExact(env, s, i, p);
    case _ =>
  }

  /** So for today's server home deliveries alone keep the prefix invariant. */
  lemma HomeRunsAreSafe(env: Env, start: System, steps: seq<Step>, p: string)
    requires HashOk(env) && !env.reportsSize && Started(start) && p in env.content && DiskOkAt(env, start.server, p)
    requires Possible(env, start, steps) && HomeRun(env, start, steps)
    ensures SafeAt(env, Run(env, start, steps).server, p)
  {
    StartInv(env, start, p);
    HomeRunsAreLegal(env, start, steps, p);
    StartKeepsSafe(env, start, steps, p);
  }

  /** The recorded size of a home session is the offset its attempt claimed plus every byte copied. */
  lemma HomeAccounting(env: Env, start: System, steps: seq<Step>, id: nat)
    requires Started(start) && Possible(env, start, steps) && HomeRun(env, start, steps)
    requires Enabled(env, Run(env, start, steps), DoFinish(id))
    ensures var s := Run(env, start, steps);
            && id < |s.attempts| && (s.attempts[id].phase.Streaming? || s.attempts[id].phase.Ended?)
            && s.server.sessions[id].position == s.attempts[id].phase.start.offset + s.server.sessions[id].copied
  {
    RunKeepsStreams(env, start, steps);
    var s := Run(env, start, steps);
    assert ShapeOk(env, s.server.disk, s.server.sessions[id]);
  }

}
