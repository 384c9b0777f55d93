/** The completion test over the initial disk: for which disks no run ever reports a job complete that is not. */
module ProtocolCompletion {
  import opened Wrappers
  import opened FileBytes
  import opened Protocol
  import opened ProtocolShape
  import opened ProtocolSafety
  import opened ProtocolRuns
  import opened ProtocolRecords
  import opened ProtocolOutcomes
  import opened ProtocolProgress
  import SF = ServerFile
  import W = Worker

  /** Every job of p that was reported complete with its local hash computed had its content on the server. */
  ghost predicate AllSaw(env: Env, s: System, p: string)
    requires p in env.content
  {
    forall i :: 0 <= i < |s.attempts| && s.attempts[i].path == p && s.attempts[i].phase == Complete(true) ==>
      SeenBytes(s.attempts[i]) == env.content[p]
  }

  /** No aligned run reports a job of p complete that is not. */
  ghost predicate CompletesSoundly(env: Env, s: System, p: string)
    requires p in env.content
  {
    forall steps :: Legal(env, s, steps, p) ==> AllSaw(env, Run(env, s, steps), p)
  }

  /**
   * The disks on which the completion test tells the truth. With reported sizes a stale file does harm if it can become
   * as long as the content; without them only if the content is empty.
   */
  ghost predicate TestTells(env: Env, server: Server, p: string)
    requires p in env.content
  {
    var (file, c) := (FileOnDisk(server, p), env.content[p]);
    || (if env.reportsSize then file <= c || |file| > |c| else file == [] || c != [])
    || (!Known(env, server, p) && Unique(env, p))
  }

  // ----- disks on which it does -----

  lemma CompletedBySize(env: Env, a: Attempt)
    requires HashOk(env) && NoCollision(env) && env.reportsSize && HistoryOk(env, a) && a.phase == Complete(true)
    requires SeenFine(env.content[a.path], a)
    ensures SeenBytes(a) == env.content[a.path]
  {
    if a.seen.Some? {
      assert env.hash(a.seen.value) != "";
    }
  }

  /** Without reported sizes only equal hashes complete a job that has something to transfer, in any run at all. */
  lemma CompletedByHash(env: Env, a: Attempt)
    requires HashOk(env) && NoCollision(env) && !env.reportsSize && HistoryOk(env, a) && a.phase == Complete(true)
    requires env.content[a.path] != []
    ensures SeenBytes(a) == env.content[a.path]
  {
    if a.seen.Some? {
      assert env.hash(a.seen.value) != "";
    }
  }

  /** Today's server: every completed job that transfers anything was complete, on any disk, in any run whatever. */
  lemma HashCompletionIsSound(env: Env, start: System, steps: seq<Step>, p: string)
    requires HashOk(env) && NoCollision(env) && !env.reportsSize && Started(start) && p in env.content
    requires env.content[p] != []
    requires Possible(env, start, steps)
    ensures AllSaw(env, Run(env, start, steps), p)
  {
    RunKeepsBase(env, start, steps);
    var s := Run(env, start, steps);
    forall i | 0 <= i < |s.attempts| && s.attempts[i].path == p && s.attempts[i].phase == Complete(true)
      ensures SeenBytes(s.attempts[i]) == env.content[p]
    {
      CompletedByHash(env, s.attempts[i]);
    }
  }

  lemma SizeCompletionIsSound(env: Env, start: System, steps: seq<Step>, p: string)
    requires HashOk(env) && NoCollision(env) && env.reportsSize && Started(start) && p in env.content
    requires DiskOkAt(env, start.server, p) || LongAt(env, start.server, p)
    requires Legal(env, start, steps, p)
    ensures AllSaw(env, Run(env, start, steps), p)
  {
    StartInv(env, start, p);
    RunKeepsInv(env, start, steps, p);
    var s := Run(env, start, steps);
    forall i | 0 <= i < |s.attempts| && s.attempts[i].path == p && s.attempts[i].phase == Complete(true)
      ensures SeenBytes(s.attempts[i]) == env.content[p]
    {
      CompletedBySize(env, s.attempts[i]);
    }
  }

  lemma FineCompletionIsSound(env: Env, start: System, steps: seq<Step>, p: string)
    requires HashOk(env) && Started(start) && p in env.content && DiskOkAt(env, start.server, p)
    requires Legal(env, start, steps, p)
    ensures AllSaw(env, Run(env, start, steps), p)
  {
    ReachStrict(env, start, steps, p);
    var s := Run(env, start, steps);
    forall i | 0 <= i < |s.attempts| && s.attempts[i].path == p && s.attempts[i].phase == Complete(true)
      ensures SeenBytes(s.attempts[i]) == env.content[p]
    {
      assert HistoryOk(env, s.attempts[i]);
      CompletedSaw(env, s.attempts[i]);
    }
  }

  lemma ToldSound(env: Env, start: System, steps: seq<Step>, p: string)
    requires HashOk(env) && NoCollision(env) && Started(start) && p in env.content && TestTells(env, start.server, p)
    requires Legal(env, start, steps, p)
    ensures AllSaw(env, Run(env, start, steps), p)
  {
    if DiskOkAt(env, start.server, p) {
      FineCompletionIsSound(env, start, steps, p);
    } else if env.reportsSize {
      SizeCompletionIsSound(env, start, steps, p);
    } else {
      HashCompletionIsSound(env, start, steps, p);
    }
  }

  // ----- disks on which it does not -----

  /** The latest attempt completed on a file that is not the content. */
  ghost predicate FalselyComplete(env: Env, s: System, p: string) {
    && p in env.content && s.attempts != []
    && var a := s.attempts[|s.attempts| - 1];
       a.path == p && a.phase == Complete(true) && SeenBytes(a) == FileOnDisk(s.server, p) != env.content[p]
  }

  function AskAndBegin(s: System, p: string, meta: QueryMeta): seq<Step> {
    [DoQuery("", p, meta)] + [DoBegin(|s.attempts|, ALL_WELL)]
  }

  /** A known stale file of the size the content has, or an empty content whose size is never reported otherwise. */
  lemma StaleSizeCompletes(env: Env, s: System, p: string, meta: QueryMeta)
    requires p in env.content && Known(env, s.server, p) && DbOk(env, s.server)
    requires FileOnDisk(s.server, p) != env.content[p]
    requires |env.content[p]| == if env.reportsSize then |FileOnDisk(s.server, p)| else 0
    ensures Legal(env, s, AskAndBegin(s, p, meta), p) && FalselyComplete(env, Run(env, s, AskAndBegin(s, p, meta)), p)
  {
    var step := DoQuery("", p, meta);
    HitAnswered(env, s, "", p, meta);
    OneStep(env, s, step);
    var t := Apply(env, s, step);
    HitReports(env, s, p, meta);
    OneStep(env, t, DoBegin(|s.attempts|, ALL_WELL));
    LegalJoin(env, s, [step], [DoBegin(|s.attempts|, ALL_WELL)], p);
  }

  lemma HitReports(env: Env, s: System, p: string, meta: QueryMeta)
    requires p in env.content && Known(env, s.server, p) && DbOk(env, s.server)
    ensures Ask(env, s, "", p, meta).attempts[|s.attempts|].reply == Report(env, s.server, p)
  {
  }

  /** The job's decision on a stale file it takes for the first part of its content: resume behind it. */
  lemma StaleDecision(env: Env, a: Attempt, file: Bytes)
    requires HashOk(env) && NoCollision(env) && a.path in env.content
    requires a.reply == W.Reply(env.hash(file), |file|, |file|)
    requires 0 < |file| < |env.content[a.path]|
    ensures Decide(env, a, ALL_WELL) == Streaming(W.Start(|file|, |file|, false))
    ensures W.LocalCallsAgree(env.content[a.path], env.hash, a.reply, ALL_WELL)
    ensures a.reply.dataHash != env.hash(env.content[a.path])
  {
  }

  /** A known stale file shorter than the content: the transfer resumes behind it and makes it as long. */
  lemma StaleStreams(env: Env, s: System, p: string, meta: QueryMeta)
    requires HashOk(env) && NoCollision(env) && p in env.content && Known(env, s.server, p) && DbOk(env, s.server)
    requires env.reportsSize
    requires |FileOnDisk(s.server, p)| < |env.content[p]| && !(FileOnDisk(s.server, p) <= env.content[p])
    ensures Legal(env, s, AskAndBegin(s, p, meta), p)
    ensures var t := Run(env, s, AskAndBegin(s, p, meta));
            && t.server.db == s.server.db && t.server.disk == s.server.disk && |t.attempts| == |s.attempts| + 1
            && t.attempts[|s.attempts|].phase.Streaming?
            && t.attempts[|s.attempts|].phase.start.offset == |FileOnDisk(s.server, p)|
            && Launched(env, t, "", p, t.attempts[|s.attempts|].phase)
  {
    var step := DoQuery("", p, meta);
    HitAnswered(env, s, "", p, meta);
    OneStep(env, s, step);
    var t := Apply(env, s, step);
    HitReports(env, s, p, meta);
    StaleDecision(env, t.attempts[|s.attempts|], FileOnDisk(s.server, p));
    OneStep(env, t, DoBegin(|s.attempts|, ALL_WELL));
    LegalJoin(env, s, [step], [DoBegin(|s.attempts|, ALL_WELL)], p);
  }

  lemma StaleFileGrows(env: Env, s: System, p: string, meta: QueryMeta) returns (more: seq<Step>)
    requires HashOk(env) && NoCollision(env) && p in env.content && Known(env, s.server, p) && DbOk(env, s.server)
    requires env.reportsSize
    requires |FileOnDisk(s.server, p)| < |env.content[p]| < INT63_LIMIT && !(FileOnDisk(s.server, p) <= env.content[p])
    ensures Legal(env, s, more, p)
    ensures var t := Run(env, s, more);
            && Known(env, t.server, p) && DbOk(env, t.server)
            && |FileOnDisk(t.server, p)| == |env.content[p]| && FileOnDisk(t.server, p) != env.content[p]
  {
    var begin := AskAndBegin(s, p, meta);
    StaleStreams(env, s, p, meta);
    var t := Run(env, s, begin);
    Transfers(env, t, "", p, t.attempts[|s.attempts|].phase);
    NotPrefix(FileOnDisk(s.server, p), env.content[p]);
    LegalJoin(env, s, begin, TransferSteps(env, t), p);
    more := begin + TransferSteps(env, t);
  }

  lemma NotPrefix(file: Bytes, c: Bytes)
    requires |file| <= |c| && !(file <= c)
    ensures file[..|file|] != c[..|file|]
  {
    assert file[..|file|] == file;
  }

  /** A known file the test cannot tell: some run completes a job on it falsely. */
  lemma KnownFalselyCompletes(env: Env, s: System, p: string, meta: QueryMeta) returns (more: seq<Step>)
    requires HashOk(env) && NoCollision(env) && p in env.content && Known(env, s.server, p) && DbOk(env, s.server)
    requires |env.content[p]| < INT63_LIMIT && !TestTells(env, s.server, p)
    ensures Legal(env, s, more, p) && FalselyComplete(env, Run(env, s, more), p)
  {
    var (file, c) := (FileOnDisk(s.server, p), env.content[p]);
    if env.reportsSize && |file| < |c| {
      var first := StaleFileGrows(env, s, p, meta);
      var t := Run(env, s, first);
      StaleSizeCompletes(env, t, p, meta);
      LegalJoin(env, s, first, AskAndBegin(t, p, meta), p);
      more := first + AskAndBegin(t, p, meta);
    } else {
      StaleSizeCompletes(env, s, p, meta);
      more := AskAndBegin(s, p, meta);
    }
  }

  lemma TwinTimely(q: string, meta: QueryMeta)
    requires SF.Plain(meta.mediaPrefix) && meta.clientTime != SF.EPOCH && meta.createdAt != SF.EPOCH
    ensures TimelyRun(TwinQuery(q, meta))
  {
    assert TwinQuery(q, meta)[1..] == [DoMiss(0, meta)] && [DoMiss(0, meta)][1..] == [];
  }

  /**
   * The database knows contents, not paths. So a stale file, known or of a content another path has, is never removed,
   * and a job on it is declared complete although the server has other bytes.
   */
  lemma StaleFalselyCompletes(env: Env, s: System, p: string, meta: QueryMeta) returns (more: seq<Step>)
    requires ValidEnv(env) && NoCollision(env) && Begun(env, s) && p in env.content && !TestTells(env, s.server, p)
    requires GoodMeta(env, meta)
    requires SF.Plain(meta.mediaPrefix) && meta.clientTime != SF.EPOCH && meta.createdAt != SF.EPOCH
    ensures Legal(env, s, more, p) && FalselyComplete(env, Run(env, s, more), p)
  {
    if Known(env, s.server, p) {
      more := KnownFalselyCompletes(env, s, p, meta);
    } else {
      var q :| q in env.content && q != p && env.content[q] == env.content[p];
      TwinMakesKnown(env, s, p, q, meta);
      TwinTimely(q, meta);
      RunKeepsRecords(env, s, TwinQuery(q, meta));
      var t := Run(env, s, TwinQuery(q, meta));
      var rest := KnownFalselyCompletes(env, t, p, meta);
      LegalJoin(env, s, TwinQuery(q, meta), rest, p);
      more := TwinQuery(q, meta) + rest;
    }
  }

  /**
   * Completion soundness over the initial disk, exactly, for a server that reports sizes and for today's that does not:
   * no aligned run ever reports a job of p complete that is not, if and only if the test can tell.
   */
  lemma CompletionDiskExact(env: Env, s: System, p: string, meta: QueryMeta)
    requires ValidEnv(env) && NoCollision(env) && Begun(env, s) && p in env.content && GoodMeta(env, meta)
    requires SF.Plain(meta.mediaPrefix) && meta.clientTime != SF.EPOCH && meta.createdAt != SF.EPOCH
    ensures CompletesSoundly(env, s, p) <==> TestTells(env, s.server, p)
  {
    if TestTells(env, s.server, p) {
      forall steps | Legal(env, s, steps, p) ensures AllSaw(env, Run(env, s, steps), p) {
        ToldSound(env, s, steps, p);
      }
    } else {
      var more := StaleFalselyCompletes(env, s, p, meta);
      assert Legal(env, s, more, p) && !AllSaw(env, Run(env, s, more), p);
    }
  }
}
