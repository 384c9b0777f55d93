/** Where the hypotheses are needed: concrete runs that leave the safe states, sessions that never write, lost files. */
module ProtocolLimits {
  import opened Wrappers
  import opened FileBytes
  import opened Protocol
  import opened ProtocolShape
  import opened ProtocolSafety
  import opened ProtocolRuns
  import opened ProtocolRecords
  import opened ProtocolOutcomes
  import opened ProtocolHome
  import opened ProtocolProgress
  import S = Stream
  import SF = ServerFile
  import W = Worker

  // ----- a lost signal -----

  /** The first chunk came before the writer waited: the offset is taken, the signal is gone. */
  predicate Deaf(server: Server, id: nat) {
    && id in server.sessions && server.sessions[id].once
    && server.sessions[id].phase in {Created, Opened, Waiting, Failed}
  }

  lemma DeafPut(a: Server, b: Server, id: nat, other: nat, g: Session)
    requires Deaf(a, id) && b.sessions == a.sessions[other := g]
    requires other == id ==> g.once && g.phase in {Created, Opened, Waiting, Failed}
    ensures Deaf(b, id)
  {
  }

  lemma DeafQuery(env: Env, s: System, id: nat, step: Step)
    requires Base(env, s) && Deaf(s.server, id) && Enabled(env, s, step) && (step.DoQuery? || step.DoMiss?)
    ensures Deaf(Apply(env, s, step).server, id)
  {
    match step
    case DoQuery(client, path, meta) =>
      var c := env.content[path];
      if env.hash(c) in s.server.db {
        HitSession(env, s.server, |s.attempts|, client, path, env.hash(c), |c|, meta);
      }
    case DoMiss(i, meta) => MissDeaf(env, s.server, i, s.attempts[i], meta, id);
  }

  lemma MissDeaf(env: Env, a: Server, i: nat, t: Attempt, meta: QueryMeta, id: nat)
    requires Deaf(a, id) && i != id && t.path in env.content
    ensures Deaf(QueryMiss(env, a, i, t.client, t.path, env.hash(env.content[t.path]), |env.content[t.path]|, meta).0, id)
  {
    RemoveLeaves(a, t.path, id);
    assert Deaf(RemoveFile(a, t.path), id);
  }

  lemma DeafWriter(env: Env, s: System, id: nat, step: Step)
    requires Deaf(s.server, id) && Enabled(env, s, step)
    requires step.DoOpen? || step.DoWait? || step.DoSeek? || step.DoTake? || step.DoFail? || step.DoFlush? || step.DoFinish?
    ensures Deaf(Apply(env, s, step).server, id)
  {
    match step
    case DoFlush(other, k) => FlushParts(s.server, other, k);
    case DoFinish(other) => FinishSessions(env, s.server, other);
    case _ =>
  }

  lemma DeafStep(env: Env, s: System, id: nat, step: Step)
    requires Base(env, s) && Deaf(s.server, id) && Enabled(env, s, step)
    ensures Deaf(Apply(env, s, step).server, id)
  {
    match step
    case DoQuery(_, _, _) => DeafQuery(env, s, id, step);
    case DoMiss(_, _) => DeafQuery(env, s, id, step);
    case DoBegin(_, _) =>
    case DoSend(_, _) =>
    case DoCut(_) =>
    case DoEnd(_, _) =>
    case DoDeliver(i) =>
      if HasSession(s.server, s.attempts[i].client) {
        var other := s.server.active[s.attempts[i].client];
        DeafPut(s.server, Apply(env, s, step).server, id, other, Feed(s.server.sessions[other], s.attempts[i].wire[0]));
      }
    case DoClose(client) =>
      if HasSession(s.server, client) {
        var other := s.server.active[client];
        DeafPut(s.server, Apply(env, s, step).server, id, other, ClosePipe(s.server.sessions[other]));
      }
    case _ => DeafWriter(env, s, id, step);
  }

  /** In no run at all does such a writer ever write: it is stuck for good. */
  lemma {:induction false} LostSignalIsForever(env: Env, s: System, id: nat, steps: seq<Step>)
    requires Base(env, s) && Deaf(s.server, id) && Possible(env, s, steps)
    ensures Deaf(Run(env, s, steps).server, id)
    decreases |steps|
  {
    if steps != [] {
      StepKeepsBase(env, s, steps[0]);
      DeafStep(env, s, id, steps[0]);
      LostSignalIsForever(env, Apply(env, s, steps[0]), id, steps[1..]);
    }
  }

  /** The writer of session id copies in some run from here on. */
  ghost predicate MayWrite(env: Env, s: System, id: nat) {
    exists steps :: Possible(env, s, steps) && At(Run(env, s, steps), id, Writing)
  }

  /**
   * The first chunk of a session decides its fate: after it there is a run in which the session writes if and only if
   * its writer was already waiting.
   */
  lemma FirstChunkDecides(env: Env, s: System, i: nat, id: nat)
    requires Base(env, s) && Enabled(env, s, DoDeliver(i)) && s.attempts[i].wire[0].offset < INT63_LIMIT
    requires HasSession(s.server, s.attempts[i].client) && s.server.active[s.attempts[i].client] == id
    requires !s.server.sessions[id].once && s.server.sessions[id].phase in {Created, Opened, Waiting}
    ensures MayWrite(env, Apply(env, s, DoDeliver(i)), id) <==> s.server.sessions[id].phase == Waiting
  {
    var t := Apply(env, s, DoDeliver(i));
    StepKeepsBase(env, s, DoDeliver(i));
    if s.server.sessions[id].phase == Waiting {
      WokenWrites(env, t, id);
    } else {
      DeafNeverWrites(env, t, id);
    }
  }

  lemma WokenWrites(env: Env, s: System, id: nat)
    requires At(s, id, Signalled) && s.server.sessions[id].currentSize < INT63_LIMIT
    ensures MayWrite(env, s, id)
  {
    OneStep(env, s, DoSeek(id));
    assert At(Run(env, s, [DoSeek(id)]), id, Writing);
  }

  lemma DeafNeverWrites(env: Env, s: System, id: nat)
    requires Base(env, s) && Deaf(s.server, id)
    ensures !MayWrite(env, s, id)
  {
    forall steps | Possible(env, s, steps) ensures !At(Run(env, s, steps), id, Writing) {
      LostSignalIsForever(env, s, id, steps);
    }
  }

  // ----- small runs -----

  lemma Chain(env: Env, s: System, step: Step, rest: seq<Step>, p: string)
    requires Enabled(env, s, step) && Legal(env, Apply(env, s, step), rest, p)
    ensures Possible(env, s, [step] + rest) && Run(env, s, [step] + rest) == Run(env, Apply(env, s, step), rest)
    ensures Benign(env, s, step, p) ==> Legal(env, s, [step] + rest, p)
  {
    assert ([step] + rest)[1..] == rest;
  }

  /** Two bytes on one path, times and prefix as harmless as they can be, nothing on the server. */
  ghost predicate TinyWorld(env: Env, s: System, meta: QueryMeta) {
    && ValidEnv(env) && Started(s) && GoodMeta(env, meta) && SF.Plain(meta.mediaPrefix)
    && meta.clientTime != SF.EPOCH && meta.createdAt != SF.EPOCH
    && env.content == map["p" := [1, 2]] && s.server.disk == map[] && s.server.db == map[]
  }

  ghost predicate Tiny(env: Env) {
    HashOk(env) && env.content == map["p" := [1, 2]]
  }

  /** One client, asked once, nothing sent yet. */
  ghost predicate Primed(env: Env, s: System) {
    && Tiny(env) && |s.attempts| == 1 && s.attempts[0] == Attempt("j", "p", W.Reply("", 0, 0), None, Replied, 0, 0, [], false)
    && s.server.disk == map[] && At(s, 0, Created) && s.server.active == map["j" := 0]
    && s.server.sessions.Keys == {0} && s.server.sessions[0].path == "p" && !s.server.sessions[0].once
    && s.server.sessions[0].pipeOpen && s.server.sessions[0].pipe == []
    && env.hash([1, 2]) in s.server.db && SF.Decodes(env.fmt, s.server.db[env.hash([1, 2])])
  }

  function AskOnce(meta: QueryMeta): seq<Step> {
    [DoQuery("j", "p", meta)] + [DoMiss(0, meta)]
  }

  lemma TinyHash(env: Env)
    requires Tiny(env)
    ensures env.hash([1, 2]) != "" && env.hash([]) != env.hash([1, 2])
  {
    var c := env.content["p"];
    if env.hash([]) == env.hash(c) {
      PrefixHash(env, "p", [], "p");
    }
  }

  lemma FirstQuery(env: Env, s: System, meta: QueryMeta)
    requires TinyWorld(env, s, meta)
    ensures Legal(env, s, AskOnce(meta), "p") && Primed(env, Run(env, s, AskOnce(meta)))
  {
    var c := env.content["p"];
    assert |c| == 2;
    var f := NewSession("p", env.hash(c), meta.mediaPrefix, |c|, 0, meta.createdAt, meta.modifiedAt);
    SF.StoredRecordDecodes(env.fmt, RecordOf(f));
    var step := DoQuery("j", "p", meta);
    var t := Apply(env, s, step);
    OneStep(env, s, step);
    OneStep(env, t, DoMiss(0, meta));
    LegalJoin(env, s, [step], [DoMiss(0, meta)], "p");
  }

  /** The job begins its stream at 0. */
  lemma FirstBegin(env: Env, s: System)
    requires Primed(env, s)
    ensures Enabled(env, s, DoBegin(0, ALL_WELL)) && Benign(env, s, DoBegin(0, ALL_WELL), "p")
    ensures var t := Apply(env, s, DoBegin(0, ALL_WELL));
            t.server == s.server && t.attempts == [s.attempts[0].(phase := Streaming(W.Start(0, 0, false)))]
  {
    TinyHash(env);
  }

  // ----- completion reported at the end of a stream -----

  /** Sending block after block, none of which the server has received yet. */
  function Sends(i: nat, cuts: seq<nat>): seq<Step> {
    if cuts == [] then [] else [DoSend(i, cuts[0])] + Sends(i, cuts[1..])
  }

  lemma {:induction false} SendsAll(env: Env, s: System, i: nat, cuts: seq<nat>, p: string)
    requires i < |s.attempts| && Blocked(cuts) && Left(env, s.attempts[i], S.Sum(cuts)) && !s.attempts[i].cut
    ensures Legal(env, s, Sends(i, cuts), p)
    ensures var (t, a) := (Run(env, s, Sends(i, cuts)), s.attempts[i]);
            && t.server == s.server && |t.attempts| == |s.attempts|
            && var b := t.attempts[i];
               && b == a.(sent := a.sent + S.Sum(cuts), wire := b.wire) && a.wire <= b.wire && (cuts != [] ==> b.wire != [])
    decreases |cuts|
  {
    if cuts != [] {
      var t := Apply(env, s, DoSend(i, cuts[0]));
      SendsAll(env, t, i, cuts[1..], p);
      Chain(env, s, DoSend(i, cuts[0]), Sends(i, cuts[1..]), p);
    }
  }

  /** One client has asked for the content, which nothing on the server knew, and has begun its stream at 0. */
  ghost predicate Begins(env: Env, s: System, p: string) {
    && p in env.content && |s.attempts| == 1 && Unsent(s.attempts[0]) && s.attempts[0].path == p
    && s.attempts[0].phase == Streaming(W.Start(0, 0, false)) && FileOnDisk(s.server, p) == []
    && Fresh(s, 0, s.attempts[0].client, p)
  }

  lemma FirstAnswered(env: Env, start: System, p: string, meta: QueryMeta) returns (ask: seq<Step>)
    requires ValidEnv(env) && Begun(env, start) && p in env.content && !Known(env, start.server, p) && GoodMeta(env, meta)
    ensures Legal(env, start, ask, p)
    ensures var s := Run(env, start, ask);
            && Base(env, s) && Answered(env, s, "client", p, Replied) && FileOnDisk(s.server, p) == [] && |s.attempts| == 1
  {
    ask := AskSteps(env, start, "client", p, meta);
    AskAnswered(env, start, "client", p, meta);
    RunKeepsBase(env, start, ask);
  }

  lemma StreamBegins(env: Env, start: System, p: string, meta: QueryMeta) returns (steps: seq<Step>)
    requires ValidEnv(env) && Begun(env, start) && p in env.content && env.content[p] != []
    requires !Known(env, start.server, p) && GoodMeta(env, meta)
    ensures Legal(env, start, steps, p) && Begins(env, Run(env, start, steps), p)
  {
    var begin := DoBegin(0, ALL_WELL);
    var ask := FirstAnswered(env, start, p, meta);
    var s := Run(env, start, ask);
    Decided(env, s, "client", p);
    OneStep(env, s, begin);
    StreamFromNothing(env, s, "client", p);
    LegalJoin(env, start, ask, [begin], p);
    steps := ask + [begin];
  }

  /** A first query sees no file, so its job is not complete, and starts at 0. */
  lemma StreamFromNothing(env: Env, s: System, client: string, p: string)
    requires HashOk(env) && Base(env, s) && Answered(env, s, client, p, Replied)
    requires FileOnDisk(s.server, p) == [] != env.content[p]
    requires |s.attempts| == 1 && Enabled(env, s, DoBegin(0, ALL_WELL))
    ensures Begins(env, Apply(env, s, DoBegin(0, ALL_WELL)), p)
  {
    assert HistoryOk(env, s.attempts[0]);
    FirstDecision(env, s.attempts[0]);
  }

  lemma FirstDecision(env: Env, a: Attempt)
    requires HashOk(env) && HistoryOk(env, a) && a.reply.Reply? && SeenBytes(a) == [] != env.content[a.path]
    ensures Decide(env, a, ALL_WELL) == Streaming(W.Start(0, 0, false)) && a.reply.dataHash != env.hash(env.content[a.path])
  {
    if a.reply.dataHash == env.hash(env.content[a.path]) {
      CompleteSees(env, a);
    }
  }

  /** The stream has ended, everything was sent, nothing is on the server. */
  ghost predicate EndedEmpty(env: Env, s: System, p: string) {
    && p in env.content && |s.attempts| == 1 && s.attempts[0].path == p && FileOnDisk(s.server, p) == []
    && s.attempts[0].phase == Ended(W.Start(0, 0, false), false) && s.attempts[0].sent == |env.content[p]|
  }

  lemma AllSent(env: Env, s: System, p: string)
    requires Begins(env, s, p) && env.content[p] != []
    ensures var (cuts, a) := (Blocks(|env.content[p]|), s.attempts[0]);
            && Legal(env, s, Sends(0, cuts), p)
            && var t := Run(env, s, Sends(0, cuts));
               && t.server == s.server && |t.attempts| == 1 && t.attempts[0].wire != []
               && t.attempts[0] == a.(sent := |env.content[p]|, wire := t.attempts[0].wire)
  {
    SendsAll(env, s, 0, Blocks(|env.content[p]|), p);
  }

  /** The last steps of a stream whose wire is lost before anything arrives, after the client was told of its end. */
  lemma WireLost(env: Env, s: System, p: string)
    requires Begins(env, s, p) && env.content[p] != []
    ensures var steps := Sends(0, Blocks(|env.content[p]|)) + ([DoEnd(0, false)] + [DoCut(0)]);
            && Legal(env, s, steps, p)
            && var t := Run(env, s, steps); EndedEmpty(env, t, p) && t.attempts[0].got == 0 && t.attempts[0].cut
  {
    AllSent(env, s, p);
    var t := Run(env, s, Sends(0, Blocks(|env.content[p]|)));
    var u := Apply(env, t, DoEnd(0, false));
    OneStep(env, u, DoCut(0));
    Chain(env, t, DoEnd(0, false), [DoCut(0)], p);
    LegalJoin(env, s, Sends(0, Blocks(|env.content[p]|)), [DoEnd(0, false)] + [DoCut(0)], p);
  }

  /**
   * For every content: a stream of any number of blocks can end with everything sent, the job reported complete and the
   * local file deleted, while nothing has arrived, and the connection dies.
   */
  lemma LostWireCompletes(env: Env, start: System, p: string, meta: QueryMeta) returns (steps: seq<Step>)
    requires ValidEnv(env) && Begun(env, start) && p in env.content && env.content[p] != []
    requires !Known(env, start.server, p) && GoodMeta(env, meta)
    ensures Legal(env, start, steps, p)
    ensures var t := Run(env, start, steps); EndedEmpty(env, t, p) && t.attempts[0].got == 0 && t.attempts[0].cut
  {
    var first := StreamBegins(env, start, p, meta);
    var s := Run(env, start, first);
    WireLost(env, s, p);
    var rest := Sends(0, Blocks(|env.content[p]|)) + ([DoEnd(0, false)] + [DoCut(0)]);
    LegalJoin(env, start, first, rest, p);
    steps := first + rest;
  }

  /** The first block of a stream comes before its writer waits, and all others are on the way when the client is told. */
  lemma StreamDeafened(env: Env, s: System, p: string)
    requires Begins(env, s, p) && env.content[p] != []
    ensures var steps := Sends(0, Blocks(|env.content[p]|)) + ([DoDeliver(0)] + [DoEnd(0, false)]);
            && Legal(env, s, steps, p)
            && var t := Run(env, s, steps); EndedEmpty(env, t, p) && Deaf(t.server, 0)
  {
    AllSent(env, s, p);
    var t := Run(env, s, Sends(0, Blocks(|env.content[p]|)));
    var u := Apply(env, t, DoDeliver(0));
    OneStep(env, u, DoEnd(0, false));
    Chain(env, t, DoDeliver(0), [DoEnd(0, false)], p);
    LegalJoin(env, s, Sends(0, Blocks(|env.content[p]|)), [DoDeliver(0)] + [DoEnd(0, false)], p);
  }

  /**
   * For every content: a stream of any number of blocks can end with everything sent, the job reported complete and the
   * local file deleted, while the server has nothing and its session will never write.
   */
  lemma DeafStreamCompletes(env: Env, start: System, p: string, meta: QueryMeta) returns (steps: seq<Step>)
    requires ValidEnv(env) && Begun(env, start) && p in env.content && env.content[p] != []
    requires !Known(env, start.server, p) && GoodMeta(env, meta)
    ensures Legal(env, start, steps, p)
    ensures var t := Run(env, start, steps); EndedEmpty(env, t, p) && Deaf(t.server, 0) && !MayWrite(env, t, 0)
  {
    var first := StreamBegins(env, start, p, meta);
    var s := Run(env, start, first);
    StreamDeafened(env, s, p);
    var rest := Sends(0, Blocks(|env.content[p]|)) + ([DoDeliver(0)] + [DoEnd(0, false)]);
    LegalJoin(env, start, first, rest, p);
    steps := first + rest;
    RunKeepsBase(env, start, steps);
    DeafNeverWrites(env, Run(env, start, steps), 0);
  }

  /** A stream whose local copy failed ends in the same way, with nothing sent. */
  lemma FailedCopyCompletes(env: Env, start: System, p: string, meta: QueryMeta) returns (steps: seq<Step>)
    requires ValidEnv(env) && Begun(env, start) && p in env.content && env.content[p] != []
    requires !Known(env, start.server, p) && GoodMeta(env, meta)
    ensures Legal(env, start, steps, p)
    ensures var t := Run(env, start, steps);
            && |t.attempts| == 1 && t.attempts[0].path == p && t.attempts[0].phase == Ended(W.Start(0, 0, false), true)
            && t.attempts[0].sent == 0 && FileOnDisk(t.server, p) == []
  {
    var first := StreamBegins(env, start, p, meta);
    OneStep(env, Run(env, start, first), DoEnd(0, true));
    LegalJoin(env, start, first, [DoEnd(0, true)], p);
    steps := first + [DoEnd(0, true)];
  }

  // ----- a stream that outlives its session -----

  /** Two attempts of one job ID, the first one streaming, the second one's session waiting for its first chunk. */
  ghost predicate TwoStreams(env: Env, s: System, sent: nat, second: AttemptPhase) {
    && Tiny(env) && |s.attempts| == 2 && sent <= 1
    && s.attempts[0] == Attempt("j", "p", W.Reply("", 0, 0), None, Streaming(W.Start(0, 0, false)), sent, sent, [], false)
    && s.attempts[1].client == "j" && s.attempts[1].path == "p" && Unsent(s.attempts[1]) && s.attempts[1].phase == second
    && "j" in s.server.active && s.server.active["j"] == 1 && At(s, 1, Waiting) && env.hash([1, 2]) in s.server.db
    && s.server.disk == map["p" := []]
    && var f := s.server.sessions[1];
       !f.once && f.pipeOpen && f.pipe == [] && f.buffer == [] && f.linked && f.path == "p" && f.copied == 0
  }

  /** A byte of the first stream opens the second session, is taken and written. */
  function ForeignByte(): seq<Step> {
    Pass(0, 1) + ([DoSeek(1)] + ([DoTake(1, 1)] + [DoFlush(1, 1)]))
  }

  /** The state after it. */
  ghost predicate Written(env: Env, s: System, second: AttemptPhase, file: Bytes) {
    && Tiny(env) && |s.attempts| == 2 && s.attempts[1].client == "j" && s.attempts[1].path == "p"
    && Unsent(s.attempts[1]) && s.attempts[1].phase == second
    && "j" in s.server.active && s.server.active["j"] == 1 && At(s, 1, Writing) && env.hash([1, 2]) in s.server.db
    && s.server.disk == map["p" := file]
    && var f := s.server.sessions[1];
       f.once && f.pipeOpen && f.pipe == [] && f.buffer == [] && f.linked && f.path == "p" && f.position == |file|
  }

  lemma ByteOf(env: Env, k: nat)
    requires Tiny(env) && k < 2
    ensures |env.content["p"]| == 2 && env.content["p"][k..k + 1] == [(k + 1) as byte]
  {
  }

  lemma ForeignArrives(env: Env, s: System, sent: nat, second: AttemptPhase)
    requires TwoStreams(env, s, sent, second)
    ensures Possible(env, s, Pass(0, 1)) && (sent == 0 ==> Legal(env, s, Pass(0, 1), "p"))
    ensures var t := Run(env, s, Pass(0, 1));
            && At(t, 1, Signalled) && t.server.disk == s.server.disk && t.server.db == s.server.db && t.server.active == s.server.active
            && |t.attempts| == 2 && t.attempts[1] == s.attempts[1]
            && var f := t.server.sessions[1];
               && f.once && f.currentSize == sent && f.pipe == [(sent + 1) as byte] && f.buffer == []
               && f.pipeOpen && f.linked && f.path == "p"
  {
    ByteOf(env, sent);
    PassRuns(env, s, 0, s.attempts[0], 1);
  }

  lemma Overwrites(k: nat)
    requires k <= 1
    ensures WriteAt([], k, [(k + 1) as byte][..1]) == if k == 0 then [1] else [0, 2]
  {
  }

  /** The state of the second session before a byte is taken. */
  ghost predicate ByteWaits(env: Env, s: System, file: Bytes, at: nat, b: byte, second: AttemptPhase) {
    && Tiny(env) && |s.attempts| == 2 && s.attempts[1].client == "j" && s.attempts[1].path == "p"
    && s.attempts[1].phase == second && s.server.disk == map["p" := file]
    && "j" in s.server.active && s.server.active["j"] == 1 && At(s, 1, Writing) && env.hash([1, 2]) in s.server.db
    && var f := s.server.sessions[1];
       f.once && f.position == at && f.pipe == [b] && f.buffer == [] && f.pipeOpen && f.linked && f.path == "p"
  }

  lemma TakenWritten(env: Env, s: System, file: Bytes, at: nat, b: byte, second: AttemptPhase)
    requires ByteWaits(env, s, file, at, b, second) && at <= 1
    ensures var steps := [DoTake(1, 1)] + [DoFlush(1, 1)];
            && Legal(env, s, steps, "p")
            && var t := Run(env, s, steps);
               && t.attempts == s.attempts && t.server.disk == map["p" := WriteAt(file, at, [b][..1])]
               && t.server.active == s.server.active && t.server.db == s.server.db && At(t, 1, Writing)
               && var g := t.server.sessions[1];
                  g.once && g.position == at + 1 && g.pipe == [] && g.buffer == [] && g.pipeOpen && g.linked && g.path == "p"
  {
    var t := Apply(env, s, DoTake(1, 1));
    assert t.server.sessions[1].buffer == [b] && [b][..1] == [b];
    OneStep(env, t, DoFlush(1, 1));
    Chain(env, s, DoTake(1, 1), [DoFlush(1, 1)], "p");
  }

  /** The byte in the pipe, taken and written by a writer just woken. */
  lemma ForeignTaken(env: Env, s: System, at: nat, second: AttemptPhase)
    requires Tiny(env) && at <= 1 && |s.attempts| == 2 && s.attempts[1].client == "j" && s.attempts[1].path == "p"
    requires Unsent(s.attempts[1]) && s.attempts[1].phase == second && s.server.disk == map["p" := []]
    requires "j" in s.server.active && s.server.active["j"] == 1 && At(s, 1, Signalled) && env.hash([1, 2]) in s.server.db
    requires var f := s.server.sessions[1];
             && f.once && f.currentSize == at && f.pipe == [(at + 1) as byte] && f.buffer == []
             && f.pipeOpen && f.linked && f.path == "p"
    ensures var steps := [DoSeek(1)] + ([DoTake(1, 1)] + [DoFlush(1, 1)]);
            Legal(env, s, steps, "p") && Written(env, Run(env, s, steps), second, if at == 0 then [1] else [0, 2])
  {
    TakenWritten(env, Apply(env, s, DoSeek(1)), [], at, (at + 1) as byte, second);
    Overwrites(at);
    Chain(env, s, DoSeek(1), [DoTake(1, 1)] + [DoFlush(1, 1)], "p");
  }

  lemma ForeignWritten(env: Env, s: System, sent: nat, second: AttemptPhase)
    requires TwoStreams(env, s, sent, second)
    ensures Possible(env, s, ForeignByte()) && (sent == 0 ==> Legal(env, s, ForeignByte(), "p"))
    ensures Written(env, Run(env, s, ForeignByte()), second, if sent == 0 then [1] else [0, 2])
  {
    ForeignArrives(env, s, sent, second);
    var rest := [DoSeek(1)] + ([DoTake(1, 1)] + [DoFlush(1, 1)]);
    ForeignTaken(env, Run(env, s, Pass(0, 1)), sent, second);
    RunSplit(env, s, Pass(0, 1), rest);
    if sent == 0 {
      LegalJoin(env, s, Pass(0, 1), rest, "p");
    }
  }

  lemma WrongIsUnsafe(env: Env, server: Server, file: Bytes)
    requires Tiny(env) && env.hash([1, 2]) in server.db && FileOnDisk(server, "p") == file && file in {[0, 2], [1, 1]}
    ensures !SafeAt(env, server, "p")
  {
    var c := env.content["p"];
    assert Known(env, server, "p");
    assert file[0] != c[0] || file[1] != c[1];
  }

  /** The first stream begins, its session opens too early, and one byte goes to it; then the job asks again. */
  function LateStream(meta: QueryMeta): seq<Step> {
    [DoOpen(0)] + (Pass(0, 1) + AskAgain(meta))
  }

  function AskAgain(meta: QueryMeta): seq<Step> {
    [DoQuery("j", "p", meta)] + ([DoOpen(1)] + [DoWait(1)])
  }

  lemma SecondQuery(env: Env, s: System, meta: QueryMeta)
    requires Tiny(env) && |s.attempts| == 1 && s.attempts[0].client == "j" && s.attempts[0].path == "p"
    requires s.attempts[0].sent <= 1
    requires var k := s.attempts[0].sent;
             s.attempts[0] == Attempt("j", "p", W.Reply("", 0, 0), None, Streaming(W.Start(0, 0, false)), k, k, [], false)
    requires s.server.disk == map[] || s.server.disk == map["p" := []]
    requires env.hash([1, 2]) in s.server.db && SF.Decodes(env.fmt, s.server.db[env.hash([1, 2])])
    ensures Legal(env, s, AskAgain(meta), "p")
    ensures TwoStreams(env, Run(env, s, AskAgain(meta)), s.attempts[0].sent, Replied)
    ensures var b := Run(env, s, AskAgain(meta)).attempts[1]; b.reply.Reply? && b.reply.dataHash != env.hash([1, 2]) && b.reply.remoteSize == 0
  {
    TinyHash(env);
    var t := Apply(env, s, DoQuery("j", "p", meta));
    SecondOpens(env, t);
    Chain(env, s, DoQuery("j", "p", meta), [DoOpen(1)] + [DoWait(1)], "p");
  }

  lemma SecondOpens(env: Env, s: System)
    requires Tiny(env) && |s.attempts| == 2 && s.attempts[0].sent <= 1
    requires var k := s.attempts[0].sent;
             s.attempts[0] == Attempt("j", "p", W.Reply("", 0, 0), None, Streaming(W.Start(0, 0, false)), k, k, [], false)
    requires s.attempts[1].client == "j" && s.attempts[1].path == "p" && Unsent(s.attempts[1])
    requires "j" in s.server.active && s.server.active["j"] == 1 && At(s, 1, Created) && env.hash([1, 2]) in s.server.db
    requires s.server.disk == map[] || s.server.disk == map["p" := []]
    requires var f := s.server.sessions[1];
             !f.once && f.pipeOpen && f.pipe == [] && f.buffer == [] && f.path == "p" && f.copied == 0
    ensures Legal(env, s, [DoOpen(1)] + [DoWait(1)], "p")
    ensures TwoStreams(env, Run(env, s, [DoOpen(1)] + [DoWait(1)]), s.attempts[0].sent, s.attempts[1].phase)
    ensures Run(env, s, [DoOpen(1)] + [DoWait(1)]).attempts == s.attempts
  {
    var t := Apply(env, s, DoOpen(1));
    assert t.server.disk == map["p" := []];
    OneStep(env, t, DoWait(1));
    Chain(env, s, DoOpen(1), [DoWait(1)], "p");
  }

  /** The run up to the moment at which the older stream's byte meets the newer session. */
  lemma LateStreamMeets(env: Env, s: System, meta: QueryMeta)
    requires Tiny(env) && |s.attempts| == 1 && At(s, 0, Created) && s.server.disk == map[]
    requires s.server.active == map["j" := 0]
    requires s.attempts[0] == Attempt("j", "p", W.Reply("", 0, 0), None, Streaming(W.Start(0, 0, false)), 0, 0, [], false)
    requires var f := s.server.sessions[0]; f.path == "p" && !f.once && f.pipeOpen && f.pipe == []
    requires env.hash([1, 2]) in s.server.db && SF.Decodes(env.fmt, s.server.db[env.hash([1, 2])])
    ensures Legal(env, s, LateStream(meta), "p") && TwoStreams(env, Run(env, s, LateStream(meta)), 1, Replied)
  {
    ByteOf(env, 0);
    var t := Apply(env, s, DoOpen(0));
    assert t.server.disk == map["p" := []];
    PassRuns(env, t, 0, t.attempts[0], 1);
    SecondQuery(env, Run(env, t, Pass(0, 1)), meta);
    LegalJoin(env, t, Pass(0, 1), AskAgain(meta), "p");
    Chain(env, s, DoOpen(0), Pass(0, 1) + AskAgain(meta), "p");
  }

  /**
   * Without the check on deliveries the prefix invariant fails: one client, one path, one retry. The bytes of the first
   * stream that arrive after the retry's query fix the offset of the new session, and the file gets a hole.
   */
  lemma StaleStreamCorrupts(env: Env, s: System, meta: QueryMeta)
    requires TinyWorld(env, s, meta)
    ensures DiskOkAt(env, s.server, "p")
    ensures var steps := AskOnce(meta) + ([DoBegin(0, ALL_WELL)] + (LateStream(meta) + ForeignByte()));
            && Possible(env, s, steps)
            && FileOnDisk(Run(env, s, steps).server, "p") == [0, 2] && !SafeAt(env, Run(env, s, steps).server, "p")
  {
    FirstQuery(env, s, meta);
    var t := Run(env, s, AskOnce(meta));
    FirstBegin(env, t);
    var t1 := Apply(env, t, DoBegin(0, ALL_WELL));
    LateStreamMeets(env, t1, meta);
    var t2 := Run(env, t1, LateStream(meta));
    ForeignWritten(env, t2, 1, Replied);
    WrongIsUnsafe(env, Run(env, t2, ForeignByte()).server, [0, 2]);
    RunSplit(env, t1, LateStream(meta), ForeignByte());
    assert ([DoBegin(0, ALL_WELL)] + (LateStream(meta) + ForeignByte()))[1..] == LateStream(meta) + ForeignByte();
    RunSplit(env, s, AskOnce(meta), [DoBegin(0, ALL_WELL)] + (LateStream(meta) + ForeignByte()));
  }

  // ----- two streams of one job -----

  /** Both attempts of the job stream from the start; a byte of the first one opens the session of the second one. */
  function BothStream(meta: QueryMeta): seq<Step> {
    [DoBegin(0, ALL_WELL)] + (AskAgain(meta) + ([DoBegin(1, ALL_WELL)] + ForeignByte()))
  }

  /** The second stream's own first byte, taken and written. */
  function HomeByte(): seq<Step> {
    Pass(1, 1) + ([DoTake(1, 1)] + [DoFlush(1, 1)])
  }

  lemma SecondBegin(env: Env, s: System)
    requires TwoStreams(env, s, 0, Replied)
    requires var b := s.attempts[1]; b.reply.Reply? && b.reply.dataHash != env.hash([1, 2]) && b.reply.remoteSize == 0
    ensures Enabled(env, s, DoBegin(1, ALL_WELL)) && Benign(env, s, DoBegin(1, ALL_WELL), "p")
    ensures TwoStreams(env, Apply(env, s, DoBegin(1, ALL_WELL)), 0, Streaming(W.Start(0, 0, false)))
  {
    assert |env.content["p"]| == 2;
  }

  lemma BothStreamWell(env: Env, s: System, meta: QueryMeta)
    requires Primed(env, s)
    ensures Legal(env, s, BothStream(meta), "p")
    ensures Written(env, Run(env, s, BothStream(meta)), Streaming(W.Start(0, 0, false)), [1])
  {
    FirstBegin(env, s);
    var t := Apply(env, s, DoBegin(0, ALL_WELL));
    SecondQuery(env, t, meta);
    var t1 := Run(env, t, AskAgain(meta));
    SecondBegin(env, t1);
    var t2 := Apply(env, t1, DoBegin(1, ALL_WELL));
    ForeignWritten(env, t2, 0, Streaming(W.Start(0, 0, false)));
    Chain(env, t1, DoBegin(1, ALL_WELL), ForeignByte(), "p");
    LegalJoin(env, t, AskAgain(meta), [DoBegin(1, ALL_WELL)] + ForeignByte(), "p");
    Chain(env, s, DoBegin(0, ALL_WELL), AskAgain(meta) + ([DoBegin(1, ALL_WELL)] + ForeignByte()), "p");
  }

  /** The second stream's next byte goes to its own session, and not where that session's bytes end. */
  ghost predicate HomeMisses(env: Env, s: System) {
    && Enabled(env, s, DoSend(1, 1))
    && var t := Apply(env, s, DoSend(1, 1));
       Enabled(env, t, DoDeliver(1)) && Home(env, t, DoDeliver(1)) && !Benign(env, t, DoDeliver(1), "p")
  }

  lemma HomeCorrupts(env: Env, s: System)
    requires Written(env, s, Streaming(W.Start(0, 0, false)), [1])
    ensures Possible(env, s, HomeByte()) && HomeMisses(env, s)
    ensures env.hash([1, 2]) in Run(env, s, HomeByte()).server.db && FileOnDisk(Run(env, s, HomeByte()).server, "p") == [1, 1]
  {
    ByteOf(env, 0);
    PassMoves(env, s.attempts[1], 1);
    PassRuns(env, s, 1, s.attempts[1], 1);
    var t := Run(env, s, Pass(1, 1));
    TakenWritten(env, t, [1], 1, 1, t.attempts[1].phase);
    AppendsOne();
    RunSplit(env, s, Pass(1, 1), [DoTake(1, 1)] + [DoFlush(1, 1)]);
  }

  lemma AppendsOne()
    ensures WriteAt([1], 1, [1 as byte][..1]) == [1, 1]
  {
  }

  /**
   * Two attempts under one job ID, both from offset 0, each byte where it claims to be: the first stream opens the
   * session of the second with an aligned chunk, every state so far is safe, and then the second stream's first byte,
   * sent to its own session, is written behind it.
   */
  lemma TwoStreamsCorrupt(env: Env, s: System, meta: QueryMeta)
    requires TinyWorld(env, s, meta)
    ensures Legal(env, s, AskOnce(meta) + BothStream(meta), "p")
    ensures var t := Run(env, s, AskOnce(meta) + BothStream(meta));
            && SafeAt(env, t.server, "p")
            && Possible(env, t, HomeByte()) && HomeMisses(env, t)
            && FileOnDisk(Run(env, t, HomeByte()).server, "p") == [1, 1] && !SafeAt(env, Run(env, t, HomeByte()).server, "p")
  {
    FirstQuery(env, s, meta);
    var t := Run(env, s, AskOnce(meta));
    BothStreamWell(env, t, meta);
    LegalJoin(env, s, AskOnce(meta), BothStream(meta), "p");
    StartKeepsSafe(env, s, AskOnce(meta) + BothStream(meta), "p");
    var t1 := Run(env, s, AskOnce(meta) + BothStream(meta));
    HomeCorrupts(env, t1);
    WrongIsUnsafe(env, Run(env, t1, HomeByte()).server, [1, 1]);
  }

  // ----- two first queries of one content -----

  /**
   * Two queries look up a hash before either has stored it. One job runs to its completion, the server has the whole
   * content, the client is told so; then the other query goes on and removes the file.
   */
  lemma LateMissLosesFile(env: Env, start: System, p: string, meta: QueryMeta) returns (steps: seq<Step>)
    requires ValidEnv(env) && Begun(env, start) && p in env.content && env.content[p] != []
    requires DiskOkAt(env, start.server, p) && !Known(env, start.server, p) && GoodMeta(env, meta)
    requires SF.Plain(meta.mediaPrefix) && meta.clientTime != SF.EPOCH && meta.createdAt != SF.EPOCH
    ensures Legal(env, start, steps, p) && TimelyRun(steps)
    ensures var t := Run(env, start, steps);
            && Finished(env, t, p) && t.attempts[0].phase.Asking? && t.attempts[0].path == p
            && Legal(env, t, [Removal(t, 0)], p) && FileOnDisk(Run(env, t, [Removal(t, 0)]).server, p) == []
  {
    var first := [DoQuery("first", p, meta)];
    OneStep(env, start, first[0]);
    assert first[1..] == [];
    ReachStrict(env, start, first, p);
    RunKeepsRecords(env, start, first);
    var s := Run(env, start, first);
    var rest := JobFinishes(env, s, "second", p, meta);
    CalmIsTimely(rest, 1);
    StaysPending(env, s, rest, 1, 0);
    LegalJoin(env, start, first, rest, p);
    TimelyJoin(first, rest);
    steps := first + rest;
    PendingRemoves(env, Run(env, s, rest), 0);
    OneStep(env, Run(env, s, rest), Removal(Run(env, s, rest), 0));
  }

  // ----- a file dated at the epoch -----

  /**
   * A session whose file carries the epoch as its time stores a record that does not decode. The next query of the
   * same content deletes the record and fails; the one after it takes the hash for unknown and removes the file,
   * complete or not.
   */
  lemma EpochLosesFile(env: Env, s: System, id: nat, client: string, meta: QueryMeta)
    requires RecordsFit(env) && At(s, id, Writing) && Enabled(env, s, DoFinish(id)) && GoodMeta(env, meta)
    requires var f := s.server.sessions[id];
             && f.path in env.content && f.key == env.hash(env.content[f.path]) && f.creationTime == SF.EPOCH
             && SF.Plain(f.mediaPrefix) && f.size < SF.UINT64_LIMIT && SF.Encode(env.fmt, RecordOf(Counted(f))).Some?
    ensures var (f, stored) := (s.server.sessions[id], Apply(env, s, DoFinish(id)));
            && !SF.Decodes(env.fmt, stored.server.db[f.key])
            && var refused := Ask(env, stored, client, f.path, meta);
               && refused.attempts[|s.attempts|].phase == Refused && f.key !in refused.server.db
               && var asked := Ask(env, refused, client, f.path, meta);
                  && asked.attempts[|s.attempts| + 1].phase == Asking(meta.mediaPrefix)
                  && f.path !in Miss(env, asked, |s.attempts| + 1, meta).server.disk
  {
    var (f, stored) := (s.server.sessions[id], Apply(env, s, DoFinish(id)));
    SF.StoredRecordDecodes(env.fmt, RecordOf(Counted(f)));
    FinishParts(env, s.server, id);
    BadRecordRefuses(env, stored, client, f.path, meta);
    var refused := Ask(env, stored, client, f.path, meta);
    UnknownAsks(env, refused, client, f.path, meta);
    MissRemoves(env, Ask(env, refused, client, f.path, meta), |s.attempts| + 1, meta);
  }

  lemma BadRecordRefuses(env: Env, s: System, client: string, path: string, meta: QueryMeta)
    requires path in env.content && Known(env, s.server, path)
    requires !SF.Decodes(env.fmt, s.server.db[env.hash(env.content[path])])
    ensures var t := Ask(env, s, client, path, meta);
            |t.attempts| == |s.attempts| + 1 && t.attempts[|s.attempts|].phase == Refused && !Known(env, t.server, path)
  {
  }

  lemma UnknownAsks(env: Env, s: System, client: string, path: string, meta: QueryMeta)
    requires path in env.content && !Known(env, s.server, path)
    ensures var t := Ask(env, s, client, path, meta);
            t.server == s.server && |t.attempts| == |s.attempts| + 1
            && t.attempts[|s.attempts|].phase == Asking(meta.mediaPrefix) && t.attempts[|s.attempts|].path == path
  {
  }

  lemma MissRemoves(env: Env, s: System, i: nat, meta: QueryMeta)
    requires i < |s.attempts| && s.attempts[i].path in env.content && GoodMeta(env, meta)
    ensures s.attempts[i].path !in Miss(env, s, i, meta).server.disk
  {
  }
}
