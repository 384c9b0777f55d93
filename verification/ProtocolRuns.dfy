/** The prefix invariant over whole runs: kept by every aligned run, and exactly when a run or a disk keeps it. */
module ProtocolRuns {
  import opened Wrappers
  import opened FileBytes
  import opened Protocol
  import opened ProtocolShape
  import opened ProtocolSafety
  import SF = ServerFile
  import W = Worker

  // ----- attempts on a path -----

  /** The file a reply was made of was a prefix of the content, or longer than it. */
  predicate SeenFine(c: Bytes, a: Attempt) {
    a.reply.Reply? && a.seen.Some? ==> a.seen.value <= c || |a.seen.value| > |c|
  }

  /** A stream sends the bytes that belong at the offsets it claims, unless it was told of a file longer than the content. */
  predicate Honest(c: Bytes, a: Attempt) {
    a.phase.Streaming? || a.phase.Ended? ==>
      || a.phase.start.offset == a.phase.start.position
      || (a.reply.Reply? && a.reply.remoteSize > |c| && (a.phase.start.offset > |c| || a.phase.start.position >= |c|))
  }

  ghost predicate AttemptsFine(env: Env, s: System, p: string)
    requires p in env.content
  {
    forall i :: 0 <= i < |s.attempts| && s.attempts[i].path == p ==>
      SeenFine(env.content[p], s.attempts[i]) && Honest(env.content[p], s.attempts[i])
  }

  /** What every aligned run keeps of path p. */
  ghost predicate Inv(env: Env, s: System, p: string) {
    p in env.content && Base(env, s) && Fine(env, s.server, p) && AttemptsFine(env, s, p)
  }

  /** A transfer that starts with agreeing local calls is honest. */
  lemma BeginHonest(env: Env, a: Attempt, io: W.LocalIO)
    requires HashOk(env) && HistoryOk(env, a) && a.phase == Replied && a.reply.Reply? && SeenFine(env.content[a.path], a)
    requires a.reply.remoteSize <= |env.content[a.path]| ==> W.LocalCallsAgree(env.content[a.path], env.hash, a.reply, io)
    ensures Honest(env.content[a.path], a.(phase := Decide(env, a, io)))
  {
    var c := env.content[a.path];
    if a.reply.remoteSize <= |c| {
      W.StartPositionExact(c, env.hash, a.reply, io);
    } else {
      assert env.hash(a.seen.value) != "";
    }
  }

  /** The next bytes of an honest stream belong at the offset they are claimed for, wherever an aligned session takes them. */
  lemma HonestChunk(env: Env, server: Server, a: Attempt, f: Session)
    requires HistoryOk(env, a) && a.wire != [] && Honest(env.content[a.path], a)
    requires Heard(f) && f.path == a.path && ShapeOk(env, server.disk, f)
    requires FileOnDisk(server, a.path) <= env.content[a.path]
    requires SessionFits(env.content[a.path], FileOnDisk(server, a.path), f)
    requires Aligned(server, f, a.wire[0].offset)
    ensures Segment(env.content[a.path], a.wire[0].offset, a.wire[0].data)
  {
    WireHead(env.content[a.path], a);
  }

  // ----- steps -----

  lemma DeliverKept(env: Env, s: System, i: nat, p: string)
    requires p in env.content && Base(env, s) && Enabled(env, s, DoDeliver(i))
    requires GoodAt(env, s.server, p) ==> AttemptsFine(env, s, p) && Benign(env, s, DoDeliver(i), p)
    ensures Kept(env, s.server, Apply(env, s, DoDeliver(i)).server, p)
  {
    var a := s.attempts[i];
    if HasSession(s.server, a.client) {
      var id := s.server.active[a.client];
      var (f, chunk) := (s.server.sessions[id], a.wire[0]);
      assert ShapeOk(env, s.server.disk, f);
      if GoodAt(env, s.server, p) && f.path == p {
        if Heard(f) {
          HonestChunk(env, s.server, a, f);
        }
        FeedFits(env, s.server, env.content[p], f, chunk);
      }
      PutKept(env, s.server, id, Feed(f, chunk), p);
    }
  }

  lemma CloseKept(env: Env, s: System, client: string, p: string)
    requires p in env.content && Base(env, s)
    ensures Kept(env, s.server, Close(s.server, client), p)
  {
    if HasSession(s.server, client) {
      var id := s.server.active[client];
      var f := s.server.sessions[id];
      if GoodAt(env, s.server, p) && f.path == p {
        CloseFits(env.content[p], FileOnDisk(s.server, p), f);
      }
      PutKept(env, s.server, id, ClosePipe(f), p);
    }
  }

  lemma WriterKept(env: Env, s: System, step: Step, p: string)
    requires p in env.content && Base(env, s) && Enabled(env, s, step)
    requires step.DoWait? || step.DoSeek? || step.DoTake? || step.DoFail?
    ensures Kept(env, s.server, Apply(env, s, step).server, p)
  {
    var id := step.id;
    var f := s.server.sessions[id];
    var file := FileOnDisk(s.server, p);
    assert ShapeOk(env, s.server.disk, f);
    var fits := GoodAt(env, s.server, p) && f.path == p;
    match step
    case DoWait(_) => PutKept(env, s.server, id, f.(phase := Waiting), p);
    case DoSeek(_) =>
      if fits {
        SoughtFits(env, s.server.disk, env.content[p], file, f);
      }
      PutKept(env, s.server, id, Sought(f), p);
    case DoTake(_, k) =>
      if fits {
        TakenFits(env.content[p], file, f, k);
      }
      PutKept(env, s.server, id, Taken(f, k), p);
    case DoFail(_) => PutKept(env, s.server, id, f.(phase := Failed), p);
  }

  lemma AskKept(env: Env, s: System, client: string, path: string, meta: QueryMeta, p: string)
    requires p in env.content && path in env.content
    ensures Kept(env, s.server, Ask(env, s, client, path, meta).server, p)
  {
    if Known(env, s.server, path) {
      HitKept(env, s.server, |s.attempts|, client, path, |env.content[path]|, meta, p);
    }
  }

  /** Every step keeps a path, as long as the deliveries to its sessions are aligned and honest. */
  lemma StepKept(env: Env, s: System, step: Step, p: string)
    requires HashOk(env) && p in env.content && Base(env, s) && Fine(env, s.server, p) && Enabled(env, s, step)
    requires step.DoDeliver? && GoodAt(env, s.server, p) ==> AttemptsFine(env, s, p) && Benign(env, s, step, p)
    ensures Kept(env, s.server, Apply(env, s, step).server, p)
  {
    match step
    case DoQuery(client, path, meta) => AskKept(env, s, client, path, meta, p);
    case DoMiss(i, meta) =>
      var a := s.attempts[i];
      MissKept(env, s.server, i, a.client, a.path, |env.content[a.path]|, meta, p);
    case DoDeliver(i) => DeliverKept(env, s, i, p);
    case DoClose(client) => CloseKept(env, s, client, p);
    case DoOpen(id) => OpenKept(env, s.server, id, p);
    case DoFlush(id, k) => FlushKept(env, s.server, id, k, p);
    case DoFinish(id) => FinishKept(env, s.server, id, p);
    case DoBegin(_, _) =>
    case DoSend(_, _) =>
    case DoCut(_) =>
    case DoEnd(_, _) =>
    case _ => WriterKept(env, s, step, p);
  }

  lemma AskFine(env: Env, s: System, client: string, path: string, meta: QueryMeta, p: string)
    requires Inv(env, s, p) && path in env.content
    ensures AttemptsFine(env, Ask(env, s, client, path, meta), p)
  {
    var t := Ask(env, s, client, path, meta);
    var a := t.attempts[|s.attempts|];
    if path == p && Known(env, s.server, p) {
      assert !UntouchedAt(env, s.server, p);
      assert a.reply.Reply? ==> a.seen == if p in s.server.disk then Some(s.server.disk[p]) else None;
    }
  }

  lemma MissFine(env: Env, s: System, i: nat, meta: QueryMeta, p: string)
    requires HashOk(env) && Inv(env, s, p) && Enabled(env, s, DoMiss(i, meta))
    ensures AttemptsFine(env, Miss(env, s, i, meta), p)
  {
    var a := s.attempts[i];
    var t := Miss(env, s, i, meta);
    if a.path == p && t.attempts[i].reply.Reply? {
      MissKept(env, s.server, i, a.client, p, |env.content[p]|, meta, p);
      MissIsKnown(env, s.server, i, a.client, p, |env.content[p]|, meta);
    }
  }

  /** A miss that is answered has stored the hash. */
  lemma MissIsKnown(env: Env, a: Server, id: nat, client: string, q: string, size: nat, meta: QueryMeta)
    requires q in env.content
    ensures var (b, reply) := QueryMiss(env, a, id, client, q, env.hash(env.content[q]), size, meta);
            reply.Reply? ==> Known(env, b, q)
  {
  }

  lemma AttemptsStep(env: Env, s: System, step: Step, p: string)
    requires HashOk(env) && Inv(env, s, p) && Enabled(env, s, step) && Benign(env, s, step, p)
    ensures AttemptsFine(env, Apply(env, s, step), p)
  {
    match step
    case DoQuery(client, path, meta) => AskFine(env, s, client, path, meta, p);
    case DoMiss(i, meta) => MissFine(env, s, i, meta, p);
    case DoBegin(i, io) =>
      if s.attempts[i].path == p {
        BeginHonest(env, s.attempts[i], io);
      }
    case _ =>
  }

  lemma StepKeepsInv(env: Env, s: System, step: Step, p: string)
    requires HashOk(env) && Inv(env, s, p) && Enabled(env, s, step) && Benign(env, s, step, p)
    ensures Inv(env, Apply(env, s, step), p) && Kept(env, s.server, Apply(env, s, step).server, p)
  {
    StepKeepsBase(env, s, step);
    StepKept(env, s, step, p);
    AttemptsStep(env, s, step, p);
  }

  /** Every run that is aligned on p keeps the invariant of p, whatever it does to other paths. */
  lemma {:induction false} RunKeepsInv(env: Env, s: System, steps: seq<Step>, p: string)
    requires HashOk(env) && Inv(env, s, p) && Legal(env, s, steps, p)
    ensures Inv(env, Run(env, s, steps), p) && Kept(env, s.server, Run(env, s, steps).server, p)
    decreases |steps|
  {
    if steps != [] {
      var t := Apply(env, s, steps[0]);
      StepKeepsInv(env, s, steps[0], p);
      RunKeepsInv(env, t, steps[1..], p);
      KeptTwice(env, s.server, t.server, Run(env, t, steps[1..]).server, p);
    }
  }

  // ----- where runs start -----

  /** A server just started, on any disk and any database, and no client yet. */
  ghost predicate Started(s: System) {
    s.server.sessions == map[] && s.server.active == map[] && s.attempts == []
  }

  /** A prefix of the content, or an older file whose new content is unknown and on no other path. */
  ghost predicate DiskOkAt(env: Env, server: Server, p: string)
    requires p in env.content
  {
    FileOnDisk(server, p) <= env.content[p] || (!Known(env, server, p) && Unique(env, p))
  }

  lemma StartInv(env: Env, s: System, p: string)
    requires Started(s) && p in env.content
    requires DiskOkAt(env, s.server, p) || LongAt(env, s.server, p)
    ensures Inv(env, s, p)
    ensures DiskOkAt(env, s.server, p) ==> GoodAt(env, s.server, p) || UntouchedAt(env, s.server, p)
  {
  }

  lemma StartKeepsSafe(env: Env, s: System, steps: seq<Step>, p: string)
    requires HashOk(env) && Started(s) && p in env.content && DiskOkAt(env, s.server, p) && Legal(env, s, steps, p)
    ensures var t := Run(env, s, steps);
            Inv(env, t, p) && (GoodAt(env, t.server, p) || UntouchedAt(env, t.server, p)) && SafeAt(env, t.server, p)
  {
    StartInv(env, s, p);
    RunKeepsInv(env, s, steps, p);
  }

  /** Clock readings that have a text form, and an environment in which nothing fails. */
  ghost predicate GoodMeta(env: Env, meta: QueryMeta) {
    !meta.removeFails && !meta.sawCreated && env.fmt.enc(meta.createdAt).Some? && env.fmt.enc(meta.modifiedAt).Some?
  }

  /** A query of another path with the same content, run without interruption. */
  function TwinQuery(q: string, meta: QueryMeta): seq<Step> {
    [DoQuery("", q, meta)] + [DoMiss(0, meta)]
  }

  lemma TwinMakesKnown(env: Env, s: System, p: string, q: string, meta: QueryMeta)
    requires Started(s) && GoodMeta(env, meta)
    requires p in env.content && q in env.content && p != q && env.content[p] == env.content[q]
    requires !Known(env, s.server, p)
    ensures Legal(env, s, TwinQuery(q, meta), p)
    ensures var t := Run(env, s, TwinQuery(q, meta));
            && Known(env, t.server, p) && FileOnDisk(t.server, p) == FileOnDisk(s.server, p)
            && (p in t.server.disk <==> p in s.server.disk) && |t.attempts| == 1
  {
    var t := Apply(env, s, DoQuery("", q, meta));
    OneStep(env, s, DoQuery("", q, meta));
    OneStep(env, t, DoMiss(0, meta));
    LegalJoin(env, s, [DoQuery("", q, meta)], [DoMiss(0, meta)], p);
    TwinMisses(env, t.server, q, p, meta);
  }

  lemma TwinMisses(env: Env, a: Server, q: string, p: string, meta: QueryMeta)
    requires GoodMeta(env, meta) && q in env.content && p in env.content && p != q && env.content[p] == env.content[q]
    ensures var b := QueryMiss(env, a, 0, "", q, env.hash(env.content[q]), |env.content[q]|, meta).0;
            Known(env, b, p) && FileOnDisk(b, p) == FileOnDisk(a, p) && (p in b.disk <==> p in a.disk)
  {
    var f := NewSession(q, env.hash(env.content[q]), meta.mediaPrefix, |env.content[q]|, 0, meta.createdAt, meta.modifiedAt);
    assert SF.Encode(env.fmt, RecordOf(f)).Some?;
  }

  /**
   * The prefix invariant, exactly: in every aligned run from a started server the file of p is a prefix of its content,
   * if and only if the initial disk has a prefix there, or an older file whose new content is neither known to the
   * database nor present on a second path.
   */
  lemma PrefixInvariantExact(env: Env, s: System, p: string, meta: QueryMeta)
    requires HashOk(env) && Started(s) && p in env.content && GoodMeta(env, meta)
    ensures DiskOkAt(env, s.server, p) <==>
            forall steps :: Legal(env, s, steps, p) ==> SafeAt(env, Run(env, s, steps).server, p)
  {
    if DiskOkAt(env, s.server, p) {
      forall steps | Legal(env, s, steps, p) ensures SafeAt(env, Run(env, s, steps).server, p) {
        StartKeepsSafe(env, s, steps, p);
      }
    } else if Known(env, s.server, p) {
      assert Legal(env, s, [], p) && Run(env, s, []) == s;
    } else {
      var q :| q in env.content && q != p && env.content[q] == env.content[p];
      TwinMakesKnown(env, s, p, q, meta);
      assert !SafeAt(env, Run(env, s, TwinQuery(q, meta)).server, p);
    }
  }

  // ----- any run at all -----

  /** If the step is a write to the file of p, its bytes land well. */
  predicate FlushLands(env: Env, s: System, step: Step, p: string)
    requires p in env.content && Enabled(env, s, step)
  {
    step.DoFlush? ==>
      var f := s.server.sessions[step.id];
      f.path == p && f.linked ==> Lands(env.content[p], FileOnDisk(s.server, p), f.position, f.buffer[..step.k])
  }

  predicate AllFlushesLand(env: Env, s: System, steps: seq<Step>, p: string)
    requires p in env.content && Possible(env, s, steps)
    decreases |steps|
  {
    steps == [] || (FlushLands(env, s, steps[0], p) && AllFlushesLand(env, Apply(env, s, steps[0]), steps[1..], p))
  }

  /** A run that can be taken and whose writes to the file of p all land: by FlushesExact, one that stays safe at p. */
  predicate Landing(env: Env, s: System, steps: seq<Step>, p: string)
    requires p in env.content
  {
    Possible(env, s, steps) && AllFlushesLand(env, s, steps, p)
  }

  ghost predicate AlwaysSafe(env: Env, s: System, steps: seq<Step>, p: string)
    requires p in env.content && Possible(env, s, steps)
    decreases |steps|
  {
    SafeAt(env, s.server, p) && (steps == [] || AlwaysSafe(env, Apply(env, s, steps[0]), steps[1..], p))
  }

  /** What the file of p alone tells, nothing being asked of the sessions. */
  ghost predicate Soft(env: Env, server: Server, p: string)
    requires p in env.content
  {
    FileOnDisk(server, p) <= env.content[p] || UntouchedAt(env, server, p)
  }

  /** Only a write puts bytes into a file; every other step leaves it or removes it. */
  lemma OnlyFlushWrites(env: Env, s: System, step: Step, p: string)
    requires Base(env, s) && Enabled(env, s, step) && !step.DoFlush?
    ensures var t := Apply(env, s, step);
            FileOnDisk(t.server, p) == FileOnDisk(s.server, p) || FileOnDisk(t.server, p) == []
    ensures FileOnDisk(Apply(env, s, step).server, p) == FileOnDisk(s.server, p)
            || (step.DoMiss? && s.attempts[step.attempt].path == p)
  {
    match step
    case DoQuery(client, path, meta) =>
    case DoMiss(i, meta) => MissFile(env, s.server, i, s.attempts[i], meta, p);
    case DoOpen(id) =>
    case DoFinish(id) =>
    case _ => QuietDisk(env, s, step);
  }

  lemma QuietDisk(env: Env, s: System, step: Step)
    requires Enabled(env, s, step) && !step.DoQuery? && !step.DoMiss? && !step.DoOpen? && !step.DoFlush? && !step.DoFinish?
    ensures Apply(env, s, step).server.disk == s.server.disk
  {
  }

  lemma MissFile(env: Env, a: Server, id: nat, t: Attempt, meta: QueryMeta, p: string)
    requires t.path in env.content
    ensures var b := QueryMiss(env, a, id, t.client, t.path, env.hash(env.content[t.path]), |env.content[t.path]|, meta).0;
            && (FileOnDisk(b, p) == FileOnDisk(a, p) || FileOnDisk(b, p) == [])
            && (t.path != p ==> FileOnDisk(b, p) == FileOnDisk(a, p))
  {
  }

  lemma FlushSoft(env: Env, s: System, id: nat, k: nat, p: string)
    requires Base(env, s) && Enabled(env, s, DoFlush(id, k)) && p in env.content
    requires FileOnDisk(s.server, p) <= env.content[p]
    ensures FlushLands(env, s, DoFlush(id, k), p) <==> FileOnDisk(Flush(s.server, id, k), p) <= env.content[p]
  {
    var f := s.server.sessions[id];
    assert ShapeOk(env, s.server.disk, f);
    FlushParts(s.server, id, k);
    if f.path == p && f.linked {
      PrefixAfterWrite(FileOnDisk(s.server, p), f.position, f.buffer[..k], env.content[p]);
    }
  }

  /** One step of any run: from a state whose file is fine it leads to another one if and only if its write lands. */
  lemma StepSoft(env: Env, s: System, step: Step, p: string)
    requires HashOk(env) && p in env.content && Base(env, s) && Soft(env, s.server, p) && Enabled(env, s, step)
    ensures FlushLands(env, s, step, p) ==> Soft(env, Apply(env, s, step).server, p)
    ensures !FlushLands(env, s, step, p) ==> !SafeAt(env, Apply(env, s, step).server, p)
  {
    if FileOnDisk(s.server, p) <= env.content[p] {
      if step.DoFlush? {
        FlushSoft(env, s, step.id, step.k, p);
        FlushParts(s.server, step.id, step.k);
        assert !FlushLands(env, s, step, p) ==> step.id in Flush(s.server, step.id, step.k).sessions;
      } else {
        OnlyFlushWrites(env, s, step, p);
      }
    } else {
      StepKept(env, s, step, p);
    }
  }

  /**
   * Exactly the runs that keep the invariant, under no hypothesis on clients, streams or deliveries: from a disk that
   * is fine at p every state of a run is safe there if and only if every write of the run to the file of p lands well.
   */
  lemma {:induction false} FlushesExact(env: Env, s: System, steps: seq<Step>, p: string)
    requires HashOk(env) && p in env.content && Base(env, s) && Soft(env, s.server, p) && Possible(env, s, steps)
    ensures AlwaysSafe(env, s, steps, p) <==> AllFlushesLand(env, s, steps, p)
    decreases |steps|
  {
    if steps != [] {
      var t := Apply(env, s, steps[0]);
      StepSoft(env, s, steps[0], p);
      StepKeepsBase(env, s, steps[0]);
      if FlushLands(env, s, steps[0], p) {
        FlushesExact(env, t, steps[1..], p);
      } else {
        assert !SafeAt(env, t.server, p);
        NotAlwaysSafe(env, t, steps[1..], p);
      }
    }
  }

  lemma NotAlwaysSafe(env: Env, s: System, steps: seq<Step>, p: string)
    requires p in env.content && Possible(env, s, steps) && !SafeAt(env, s.server, p)
    ensures !AlwaysSafe(env, s, steps, p)
  {
  }

  // ----- runs whose writes land -----

  predicate SawPrefix(c: Bytes, a: Attempt) {
    a.reply.Reply? && a.seen.Some? ==> a.seen.value <= c
  }

  /** What any run keeps whose writes to the file of p land: the file is fine and every reply was made of a prefix. */
  ghost predicate Clean(env: Env, s: System, p: string) {
    && p in env.content && Base(env, s) && Soft(env, s.server, p)
    && forall i :: 0 <= i < |s.attempts| && s.attempts[i].path == p ==> SawPrefix(env.content[p], s.attempts[i])
  }

  lemma AskClean(env: Env, s: System, client: string, path: string, meta: QueryMeta, p: string)
    requires Clean(env, s, p) && path in env.content
    ensures forall i :: 0 <= i < |Ask(env, s, client, path, meta).attempts| && Ask(env, s, client, path, meta).attempts[i].path == p
              ==> SawPrefix(env.content[p], Ask(env, s, client, path, meta).attempts[i])
  {
  }

  lemma MissClean(env: Env, s: System, i: nat, meta: QueryMeta, p: string)
    requires Clean(env, s, p) && Enabled(env, s, DoMiss(i, meta)) && Soft(env, Miss(env, s, i, meta).server, p)
    ensures forall j :: 0 <= j < |s.attempts| && s.attempts[j].path == p ==> SawPrefix(env.content[p], Miss(env, s, i, meta).attempts[j])
  {
    var a := s.attempts[i];
    if a.path == p {
      MissIsKnown(env, s.server, i, a.client, p, |env.content[p]|, meta);
    }
  }

  lemma StepKeepsClean(env: Env, s: System, step: Step, p: string)
    requires HashOk(env) && Clean(env, s, p) && Enabled(env, s, step) && FlushLands(env, s, step, p)
    ensures Clean(env, Apply(env, s, step), p)
  {
    StepKeepsBase(env, s, step);
    StepSoft(env, s, step, p);
    match step
    case DoQuery(client, path, meta) => AskClean(env, s, client, path, meta, p);
    case DoMiss(i, meta) => MissClean(env, s, i, meta, p);
    case _ =>
  }

  lemma {:induction false} RunKeepsClean(env: Env, s: System, steps: seq<Step>, p: string)
    requires HashOk(env) && Clean(env, s, p) && Landing(env, s, steps, p)
    ensures Clean(env, Run(env, s, steps), p)
    decreases |steps|
  {
    if steps != [] {
      StepKeepsClean(env, s, steps[0], p);
      RunKeepsClean(env, Apply(env, s, steps[0]), steps[1..], p);
    }
  }

  /** A path that was fine on the initial disk, after any run whose writes land. */
  lemma ReachClean(env: Env, start: System, steps: seq<Step>, p: string)
    requires HashOk(env) && Started(start) && p in env.content && DiskOkAt(env, start.server, p)
    requires Landing(env, start, steps, p)
    ensures Clean(env, Run(env, start, steps), p)
  {
    StartInv(env, start, p);
    RunKeepsClean(env, start, steps, p);
  }

  /** Every transfer of p that begins in the run begins with agreeing local calls. */
  predicate BeginsAgree(env: Env, s: System, steps: seq<Step>, p: string)
    requires Possible(env, s, steps)
    decreases |steps|
  {
    steps == [] || ((steps[0].DoBegin? ==> Benign(env, s, steps[0], p)) && BeginsAgree(env, Apply(env, s, steps[0]), steps[1..], p))
  }

  ghost predicate AllHonest(env: Env, s: System, p: string)
    requires p in env.content
  {
    forall i :: 0 <= i < |s.attempts| && s.attempts[i].path == p ==> Honest(env.content[p], s.attempts[i])
  }

  lemma StepKeepsHonest(env: Env, s: System, step: Step, p: string)
    requires HashOk(env) && Clean(env, s, p) && AllHonest(env, s, p) && Enabled(env, s, step)
    requires step.DoBegin? ==> Benign(env, s, step, p)
    ensures AllHonest(env, Apply(env, s, step), p)
  {
    if step.DoBegin? && s.attempts[step.attempt].path == p {
      BeginHonest(env, s.attempts[step.attempt], step.io);
    }
  }

  /** Streams stay honest whatever happens to their chunks, as long as writes land and local calls agree. */
  lemma {:induction false} RunKeepsHonest(env: Env, s: System, steps: seq<Step>, p: string)
    requires HashOk(env) && Clean(env, s, p) && AllHonest(env, s, p) && Landing(env, s, steps, p) && BeginsAgree(env, s, steps, p)
    ensures Clean(env, Run(env, s, steps), p) && AllHonest(env, Run(env, s, steps), p)
    decreases |steps|
  {
    if steps != [] {
      StepKeepsHonest(env, s, steps[0], p);
      StepKeepsClean(env, s, steps[0], p);
      RunKeepsHonest(env, Apply(env, s, steps[0]), steps[1..], p);
    }
  }

  // ----- aligned runs, on a path that was fine from the start -----

  /** On a path that was good or untouched from the start every reply was made of a prefix. */
  ghost predicate Strict(env: Env, s: System, p: string) {
    && Inv(env, s, p) && (GoodAt(env, s.server, p) || UntouchedAt(env, s.server, p))
    && forall i :: 0 <= i < |s.attempts| && s.attempts[i].path == p ==> SawPrefix(env.content[p], s.attempts[i])
  }

  lemma StepKeepsStrict(env: Env, s: System, step: Step, p: string)
    requires HashOk(env) && Strict(env, s, p) && Enabled(env, s, step) && Benign(env, s, step, p)
    ensures Strict(env, Apply(env, s, step), p)
  {
    StepKeepsInv(env, s, step, p);
    StepSoft(env, s, step, p);
    StepKeepsClean(env, s, step, p);
  }

  lemma {:induction false} RunKeepsStrict(env: Env, s: System, steps: seq<Step>, p: string)
    requires HashOk(env) && Strict(env, s, p) && Legal(env, s, steps, p)
    ensures Strict(env, Run(env, s, steps), p)
    decreases |steps|
  {
    if steps != [] {
      StepKeepsStrict(env, s, steps[0], p);
      RunKeepsStrict(env, Apply(env, s, steps[0]), steps[1..], p);
    }
  }

  /** In aligned runs all writes land. */
  lemma {:induction false} AlignedWritesLand(env: Env, s: System, steps: seq<Step>, p: string)
    requires HashOk(env) && Strict(env, s, p) && Legal(env, s, steps, p)
    ensures Landing(env, s, steps, p)
    decreases |steps|
  {
    if steps != [] {
      StepKeepsStrict(env, s, steps[0], p);
      StepSoft(env, s, steps[0], p);
      AlignedWritesLand(env, Apply(env, s, steps[0]), steps[1..], p);
    }
  }

  /** A path that was fine on the initial disk, after any aligned run. */
  lemma ReachStrict(env: Env, start: System, steps: seq<Step>, p: string)
    requires HashOk(env) && Started(start) && p in env.content && DiskOkAt(env, start.server, p)
    requires Legal(env, start, steps, p)
    ensures Strict(env, Run(env, start, steps), p)
  {
    StartInv(env, start, p);
    RunKeepsStrict(env, start, steps, p);
  }
}
