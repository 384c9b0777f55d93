/** What the protocol promises its clients over whole runs: completion, offsets, accounting, stream ends and restarts. */
module ProtocolOutcomes {
  import opened Wrappers
  import opened FileBytes
  import opened Protocol
  import opened ProtocolShape
  import opened ProtocolSafety
  import opened ProtocolRuns
  import opened ProtocolRecords
  import SF = ServerFile
  import W = Worker

  // ----- replies -----

  /** The server file a reply was made of, an absent one counted as empty. */
  function SeenBytes(a: Attempt): Bytes {
    if a.seen.Some? then a.seen.value else []
  }

  /** The step answers the query of attempt i. */
  predicate Answers(env: Env, s: System, step: Step, i: nat)
    requires Enabled(env, s, step)
  {
    match step
    case DoQuery(client, path, meta) => i == |s.attempts| && env.hash(env.content[path]) in s.server.db
    case DoMiss(j, meta) => i == j
    case _ => false
  }

  /** At the moment of a reply what was seen is what is there, and its hash and its size are those reported. */
  lemma AnswerIsCurrent(env: Env, s: System, step: Step, i: nat)
    requires Enabled(env, s, step) && Answers(env, s, step, i)
    ensures var t := Apply(env, s, step);
            && i < |t.attempts|
            && (t.attempts[i].reply.Reply? ==>
                  var (a, p) := (t.attempts[i], t.attempts[i].path);
                  && SeenBytes(a) == FileOnDisk(t.server, p) && (a.seen.Some? <==> p in t.server.disk)
                  && a.reply.dataHash == (if p in t.server.disk then env.hash(t.server.disk[p]) else "")
                  && a.reply.size == |FileOnDisk(t.server, p)|
                  && a.reply.remoteSize == if env.reportsSize then |FileOnDisk(t.server, p)| else 0)
  {
  }

  /** Once answered, an attempt keeps its reply. */
  predicate SameReply(a: Attempt, b: Attempt) {
    b.path == a.path && b.client == a.client && b.reply == a.reply && b.seen == a.seen && !b.phase.Asking?
  }

  lemma StepKeepsReply(env: Env, s: System, step: Step, i: nat)
    requires Enabled(env, s, step) && i < |s.attempts| && !s.attempts[i].phase.Asking?
    ensures i < |Apply(env, s, step).attempts| && SameReply(s.attempts[i], Apply(env, s, step).attempts[i])
  {
  }

  lemma {:induction false} RunKeepsReply(env: Env, s: System, steps: seq<Step>, i: nat)
    requires Possible(env, s, steps) && i < |s.attempts| && !s.attempts[i].phase.Asking?
    ensures i < |Run(env, s, steps).attempts| && SameReply(s.attempts[i], Run(env, s, steps).attempts[i])
    decreases |steps|
  {
    if steps != [] {
      StepKeepsReply(env, s, steps[0], i);
      RunKeepsReply(env, Apply(env, s, steps[0]), steps[1..], i);
    }
  }

  // ----- completion on the query path -----

  lemma CompletedSaw(env: Env, a: Attempt)
    requires HashOk(env) && HistoryOk(env, a) && a.phase.Complete? && SawPrefix(env.content[a.path], a)
    ensures SeenBytes(a) == env.content[a.path] <==> a.phase.hashOk || a.seen.Some? || env.content[a.path] == []
  {
    if a.seen.Some? {
      assert env.hash(a.seen.value) != "";
      if env.hash(a.seen.value) == env.hash(env.content[a.path]) {
        PrefixHash(env, a.path, a.seen.value, a.path);
      }
    }
  }

  /**
   * The completion test, exactly, after every run whose writes to the file land: a job reported complete by equal hashes
   * or by equal sizes had the whole content on the server when its query was answered, if and only if its local hash was
   * computed, or the server had a file, or there is nothing to transfer. The status recorded for it, the size of the
   * reply, is the length of what was there.
   */
  lemma CompletionExact(env: Env, start: System, steps: seq<Step>, i: nat, p: string)
    requires HashOk(env) && Started(start) && p in env.content && DiskOkAt(env, start.server, p)
    requires Landing(env, start, steps, p)
    requires i < |Run(env, start, steps).attempts| && Run(env, start, steps).attempts[i].path == p
    requires Run(env, start, steps).attempts[i].phase.Complete?
    ensures var a := Run(env, start, steps).attempts[i];
            && (SeenBytes(a) == env.content[p] <==> a.phase.hashOk || a.seen.Some? || env.content[p] == [])
            && a.reply.Reply? && a.reply.size == |SeenBytes(a)|
  {
    ReachClean(env, start, steps, p);
    var a := Run(env, start, steps).attempts[i];
    assert HistoryOk(env, a);
    CompletedSaw(env, a);
  }

  /** Where that fails: a failed local hash over an absent file always completes the job, whatever its content. */
  lemma FailedHashCompletes(env: Env, s: System, i: nat, io: W.LocalIO)
    requires Base(env, s) && Enabled(env, s, DoBegin(i, io)) && s.attempts[i].seen.None? && !io.hashOk
    ensures Apply(env, s, DoBegin(i, io)).attempts[i].phase == Complete(false)
  {
    assert HistoryOk(env, s.attempts[i]);
  }

  /** A state in which attempt i has a reply that is still true of the file of its path, which the database knows. */
  ghost predicate Current(env: Env, s: System, i: nat, p: string) {
    && Clean(env, s, p) && Records(env, s) && Known(env, s.server, p)
    && i < |s.attempts| && s.attempts[i].path == p && s.attempts[i].reply.Reply? && SeenBytes(s.attempts[i]) <= FileOnDisk(s.server, p)
  }

  lemma CurrentIsGood(env: Env, s: System, i: nat, p: string)
    requires Current(env, s, i, p)
    ensures FileOnDisk(s.server, p) <= env.content[p] && HistoryOk(env, s.attempts[i]) && !s.attempts[i].phase.Asking?
  {
  }

  /** Completed jobs stand: in every later run in which no miss is pending the server keeps what it reported. */
  lemma CompletionStands(env: Env, s: System, i: nat, p: string, more: seq<Step>)
    requires HashOk(env) && RecordsFit(env) && Current(env, s, i, p) && !PendingOn(s, p)
    requires Landing(env, s, more, p) && TimelyRun(more)
    requires i < |Run(env, s, more).attempts| && Run(env, s, more).attempts[i].phase == Complete(true)
    ensures FileOnDisk(Run(env, s, more).server, p) == env.content[p]
  {
    var t := Run(env, s, more);
    CurrentIsGood(env, s, i, p);
    RunGrows(env, s, more, p);
    CompleteSawAll(env, s, i, p, more);
    assert FileOnDisk(t.server, p) <= env.content[p];
  }

  lemma CompleteSawAll(env: Env, s: System, i: nat, p: string, more: seq<Step>)
    requires HashOk(env) && Current(env, s, i, p) && Landing(env, s, more, p)
    requires i < |Run(env, s, more).attempts| && Run(env, s, more).attempts[i].phase == Complete(true)
    ensures SeenBytes(s.attempts[i]) == env.content[p]
  {
    var t := Run(env, s, more);
    CurrentIsGood(env, s, i, p);
    RunKeepsReply(env, s, more, i);
    RunKeepsClean(env, s, more, p);
    assert HistoryOk(env, t.attempts[i]);
    CompletedSaw(env, t.attempts[i]);
  }

  lemma WellBegins(env: Env, s: System, i: nat, p: string)
    requires p in env.content && i < |s.attempts| && s.attempts[i].phase == Replied && s.attempts[i].path == p
    requires HistoryOk(env, s.attempts[i]) && SeenBytes(s.attempts[i]) == env.content[p] != []
    ensures var step := DoBegin(i, ALL_WELL);
            Enabled(env, s, step) && Benign(env, s, step, p) && Apply(env, s, step).attempts[i].phase == Complete(true)
  {
  }

  lemma CompletesThenLoses(env: Env, s: System, i: nat, j: nat, p: string)
    requires p in env.content && p in s.server.disk && i < |s.attempts| && j < |s.attempts|
    requires s.attempts[i].phase == Replied && s.attempts[i].path == p && HistoryOk(env, s.attempts[i])
    requires SeenBytes(s.attempts[i]) == env.content[p] != []
    requires s.attempts[j].phase.Asking? && s.attempts[j].path == p
    ensures var more := [DoBegin(i, ALL_WELL)] + [Removal(s, j)];
            && Landing(env, s, more, p) && TimelyRun(more)
            && var t := Run(env, s, more);
               i < |t.attempts| && t.attempts[i].phase == Complete(true) && FileOnDisk(t.server, p) == []
  {
    WellBegins(env, s, i, p);
    var begin := DoBegin(i, ALL_WELL);
    var t := Apply(env, s, begin);
    PendingRemoves(env, t, j);
    OneStep(env, s, begin);
    OneStep(env, t, Removal(t, j));
    LegalJoin(env, s, [begin], [Removal(t, j)], p);
    TimelyTwo(begin, Removal(t, j));
  }

  lemma TimelyTwo(x: Step, y: Step)
    requires Timely(x) && Timely(y)
    ensures TimelyRun([x] + [y])
  {
    assert ([x] + [y])[1..] == [y] && [y][1..] == [];
  }

  /** A job completes, and then a pending query of its path removes the file. */
  lemma CompletionUndone(env: Env, s: System, i: nat, p: string)
    requires Current(env, s, i, p) && s.attempts[i].phase == Replied && PendingOn(s, p)
    requires SeenBytes(s.attempts[i]) == env.content[p] != []
    ensures exists more :: Landing(env, s, more, p) && TimelyRun(more)
                        && i < |Run(env, s, more).attempts| && Run(env, s, more).attempts[i].phase == Complete(true)
                        && FileOnDisk(Run(env, s, more).server, p) == []
  {
    var j :| 0 <= j < |s.attempts| && s.attempts[j].phase.Asking? && s.attempts[j].path == p;
    CurrentIsGood(env, s, i, p);
    CompletesThenLoses(env, s, i, j, p);
    var more := [DoBegin(i, ALL_WELL)] + [Removal(s, j)];
    assert Landing(env, s, more, p) && TimelyRun(more);
  }

  lemma EmptyStays(env: Env, s: System, p: string, more: seq<Step>)
    requires HashOk(env) && RecordsFit(env) && Clean(env, s, p) && Records(env, s) && Known(env, s.server, p)
    requires Landing(env, s, more, p) && TimelyRun(more) && env.content[p] == []
    ensures FileOnDisk(Run(env, s, more).server, p) == []
  {
    RunKeepsClean(env, s, more, p);
    RunKeepsRecords(env, s, more);
  }

  /**
   * Completion soundness, exactly: a job whose reply is current finds, at whatever later moment it is complete, its whole
   * content on the server, if and only if no query of its path is pending that found the hash unknown, or it will not be
   * completed, or there is nothing to lose.
   */
  lemma CompletionSound(env: Env, s: System, i: nat, p: string)
    requires HashOk(env) && RecordsFit(env) && Current(env, s, i, p) && s.attempts[i].phase == Replied
    ensures (forall more :: Landing(env, s, more, p) && TimelyRun(more) && i < |Run(env, s, more).attempts|
                            && Run(env, s, more).attempts[i].phase == Complete(true) ==>
                              FileOnDisk(Run(env, s, more).server, p) == env.content[p])
            <==> !PendingOn(s, p) || SeenBytes(s.attempts[i]) != env.content[p] || env.content[p] == []
  {
    if PendingOn(s, p) && SeenBytes(s.attempts[i]) == env.content[p] != [] {
      CompletionUndone(env, s, i, p);
    } else {
      forall more | Landing(env, s, more, p) && TimelyRun(more) && i < |Run(env, s, more).attempts|
                    && Run(env, s, more).attempts[i].phase == Complete(true)
        ensures FileOnDisk(Run(env, s, more).server, p) == env.content[p]
      {
        if !PendingOn(s, p) {
          CompletionStands(env, s, i, p, more);
        } else {
          CompleteSawAll(env, s, i, p, more);
          EmptyStays(env, s, p, more);
        }
      }
    }
  }

  /** A step that answers a query, taken from a reachable state, leaves a reply that is true of the file. */
  lemma AnsweredIsCurrent(env: Env, start: System, before: seq<Step>, step: Step, i: nat, p: string)
    requires HashOk(env) && RecordsFit(env) && Begun(env, start) && p in env.content && DiskOkAt(env, start.server, p)
    requires Landing(env, start, before, p) && TimelyRun(before)
    requires Enabled(env, Run(env, start, before), step) && Answers(env, Run(env, start, before), step, i) && Timely(step)
    requires var t := Apply(env, Run(env, start, before), step);
             i < |t.attempts| && t.attempts[i].path == p && t.attempts[i].reply.Reply?
    ensures Current(env, Apply(env, Run(env, start, before), step), i, p)
    ensures Apply(env, Run(env, start, before), step).attempts[i].phase == Replied
  {
    var s := Run(env, start, before);
    ReachClean(env, start, before, p);
    RunKeepsRecords(env, start, before);
    StepKeepsClean(env, s, step, p);
    StepKeepsRecords(env, s, step);
    AnswerIsCurrent(env, s, step, i);
    AnswerIsKnown(env, s, step, i);
  }

  lemma AnswerIsKnown(env: Env, s: System, step: Step, i: nat)
    requires Enabled(env, s, step) && Answers(env, s, step, i)
    requires i < |Apply(env, s, step).attempts| && Apply(env, s, step).attempts[i].reply.Reply?
    ensures var t := Apply(env, s, step);
            t.attempts[i].phase == Replied && t.attempts[i].path in env.content && Known(env, t.server, t.attempts[i].path)
  {
    if step.DoMiss? {
      var a := s.attempts[i];
      MissIsKnown(env, s.server, i, a.client, a.path, |env.content[a.path]|, step.meta);
    }
  }

  /**
   * From a started server, over whole runs: a query answered after any timely run whose writes land leads to a completion
   * that is right at every later moment, if and only if no first query of its path is still undecided at the answer, or
   * the answer saw something else, or the content is empty.
   */
  lemma CompletionFromStart(env: Env, start: System, before: seq<Step>, step: Step, i: nat, p: string)
    requires HashOk(env) && RecordsFit(env) && Begun(env, start) && p in env.content && DiskOkAt(env, start.server, p)
    requires Landing(env, start, before, p) && TimelyRun(before)
    requires Enabled(env, Run(env, start, before), step) && Answers(env, Run(env, start, before), step, i) && Timely(step)
    requires var t := Apply(env, Run(env, start, before), step);
             i < |t.attempts| && t.attempts[i].path == p && t.attempts[i].reply.Reply?
    ensures var t := Apply(env, Run(env, start, before), step);
            (forall more :: Landing(env, t, more, p) && TimelyRun(more) && i < |Run(env, t, more).attempts|
                            && Run(env, t, more).attempts[i].phase == Complete(true) ==>
                              FileOnDisk(Run(env, t, more).server, p) == env.content[p])
            <==> !PendingOn(t, p) || SeenBytes(t.attempts[i]) != env.content[p] || env.content[p] == []
  {
    AnsweredIsCurrent(env, start, before, step, i, p);
    CompletionSound(env, Apply(env, Run(env, start, before), step), i, p);
  }

  // ----- offsets -----

  /**
   * Offset soundness: after every run whose writes land and whose local calls agree, every transfer reads where it claims
   * to, and starts at 0 or right behind the server file it was told of, which was that prefix of the content.
   */
  lemma OffsetSound(env: Env, start: System, steps: seq<Step>, i: nat, p: string)
    requires HashOk(env) && Started(start) && p in env.content && DiskOkAt(env, start.server, p)
    requires Landing(env, start, steps, p) && BeginsAgree(env, start, steps, p)
    requires i < |Run(env, start, steps).attempts| && Run(env, start, steps).attempts[i].path == p
    requires Run(env, start, steps).attempts[i].phase.Streaming?
    ensures var a := Run(env, start, steps).attempts[i];
            var o := a.phase.start.offset;
            && o == a.phase.start.position <= |env.content[p]|
            && (o > 0 ==> env.reportsSize && a.seen == Some(env.content[p][..o]))
  {
    StartInv(env, start, p);
    RunKeepsHonest(env, start, steps, p);
    var a := Run(env, start, steps).attempts[i];
    assert HistoryOk(env, a);
    if a.seen.Some? {
      assert a.seen.value == env.content[p][..|a.seen.value|];
    }
  }

  /** While no miss is pending, the bytes before the offset stay on the server. */
  lemma OffsetStands(env: Env, s: System, i: nat, p: string, more: seq<Step>)
    requires HashOk(env) && RecordsFit(env) && Current(env, s, i, p) && !PendingOn(s, p) && Landing(env, s, more, p)
    requires TimelyRun(more)
    requires i < |Run(env, s, more).attempts| && Run(env, s, more).attempts[i].phase.Streaming?
    ensures var (t, o) := (Run(env, s, more), Run(env, s, more).attempts[i].phase.start.offset);
            o <= |FileOnDisk(t.server, p)| && o <= |env.content[p]| && FileOnDisk(t.server, p)[..o] == env.content[p][..o]
  {
    var t := Run(env, s, more);
    CurrentIsGood(env, s, i, p);
    RunKeepsReply(env, s, more, i);
    RunGrows(env, s, more, p);
    assert HistoryOk(env, t.attempts[i]);
    assert FileOnDisk(t.server, p) <= env.content[p];
  }

  /**
   * The missing else branch is dead: after every run whose writes land the hash of the content's first bytes, as many as
   * the server reports, is the hash it reports. So an unreset offset never meets a mismatch.
   */
  lemma MismatchUnreachable(env: Env, start: System, steps: seq<Step>, i: nat, p: string)
    requires HashOk(env) && Started(start) && p in env.content && DiskOkAt(env, start.server, p)
    requires Landing(env, start, steps, p)
    requires i < |Run(env, start, steps).attempts| && Run(env, start, steps).attempts[i].path == p
    requires Run(env, start, steps).attempts[i].reply.Reply?
    ensures var a := Run(env, start, steps).attempts[i];
            && a.reply.remoteSize <= |env.content[p]|
            && (a.reply.remoteSize > 0 ==>
                  env.reportsSize && env.hash(env.content[p][..a.reply.remoteSize]) == a.reply.dataHash)
  {
    ReachClean(env, start, steps, p);
    var a := Run(env, start, steps).attempts[i];
    assert HistoryOk(env, a);
    if a.seen.Some? {
      assert a.seen.value == env.content[p][..|a.seen.value|];
    }
  }

  // ----- server accounting -----

  /**
   * Server accounting: when a writer ends, its recorded size is the offset its first chunk claimed plus every byte it
   * took from the pipe, which is its file position, and the record stored under its key decodes to that number.
   */
  lemma ServerAccounting(env: Env, start: System, steps: seq<Step>, id: nat)
    requires RecordsFit(env) && Begun(env, start) && Possible(env, start, steps) && TimelyRun(steps)
    requires Enabled(env, Run(env, start, steps), DoFinish(id))
    ensures var (s, t) := (Run(env, start, steps), Apply(env, Run(env, start, steps), DoFinish(id)));
            var (f, g) := (s.server.sessions[id], t.server.sessions[id]);
            && g.currentSize == f.currentSize + f.copied == f.position
            && (g.phase == Done ==>
                  g.key in t.server.db && SF.Decode(env.fmt, t.server.db[g.key], RecordOf(f)) == (SF.TimesExchanged(RecordOf(g)), true))
  {
    var s := Run(env, start, steps);
    RunKeepsRecords(env, start, steps);
    var f := s.server.sessions[id];
    assert ShapeOk(env, s.server.disk, f) && SessionRecordOk(f);
    FinishedRecord(env, s.server, id, f);
    var g := Apply(env, s, DoFinish(id)).server.sessions[id];
    if g.phase == Done {
      SF.PlainComesBack(env.fmt, RecordOf(g), RecordOf(f));
    }
  }

  lemma FinishParts(env: Env, a: Server, id: nat)
    requires id in a.sessions
    ensures var (b, f) := (Finish(env, a, id), a.sessions[id]);
            var (g, text) := (b.sessions[id], SF.Encode(env.fmt, RecordOf(Counted(f))));
            && RecordOf(g) == RecordOf(Counted(f)) && g.key == f.key
            && (text.Some? ==> f.key in b.db && b.db[f.key] == text.value)
            && (text.None? ==> g.phase == Failed)
  {
  }

  lemma FinishedRecord(env: Env, a: Server, id: nat, f: Session)
    requires id in a.sessions && f == a.sessions[id] && SessionRecordOk(f)
    requires f.phase == Writing && f.position == f.currentSize + f.copied
    ensures var b := Finish(env, a, id);
            var g := b.sessions[id];
            && g.currentSize == f.position && g.path == f.path && SessionRecordOk(g)
            && (g.phase == Done ==> g.key in b.db && SF.Encode(env.fmt, RecordOf(g)) == Some(b.db[g.key]))
  {
    FinishParts(env, a, id);
  }

  /** That many bytes of the content are in the file, if the session has written at all and the file has its name. */
  lemma AccountedBytes(env: Env, s: System, id: nat, p: string)
    requires Strict(env, s, p) && id in s.server.sessions && s.server.sessions[id].path == p
    requires s.server.sessions[id].linked && s.server.sessions[id].copied > 0
    ensures s.server.sessions[id].position <= |FileOnDisk(s.server, p)| && FileOnDisk(s.server, p) <= env.content[p]
    ensures s.server.sessions[id].position == |env.content[p]| ==> FileOnDisk(s.server, p) == env.content[p]
  {
  }

  // ----- restarts -----

  /** What a server finds when it is started again on the disk and database of another one. */
  function Restarted(s: System): System {
    System(Server(s.server.disk, s.server.db, map[], map[]), [])
  }

  /**
   * A restart at any point of any run whose writes land: in every run from there all states are safe if and only if all
   * writes land, and in every aligned one they do.
   */
  lemma RestartIsSafe(env: Env, start: System, steps: seq<Step>, more: seq<Step>, p: string)
    requires HashOk(env) && Started(start) && p in env.content && DiskOkAt(env, start.server, p)
    requires Landing(env, start, steps, p) && Possible(env, Restarted(Run(env, start, steps)), more)
    ensures var r := Restarted(Run(env, start, steps));
            && (AlwaysSafe(env, r, more, p) <==> AllFlushesLand(env, r, more, p))
            && (Legal(env, r, more, p) ==> AlwaysSafe(env, r, more, p))
  {
    ReachClean(env, start, steps, p);
    StartExact(env, Restarted(Run(env, start, steps)), more, p);
  }

  lemma StartExact(env: Env, start: System, steps: seq<Step>, p: string)
    requires HashOk(env) && Started(start) && p in env.content && DiskOkAt(env, start.server, p) && Possible(env, start, steps)
    ensures AlwaysSafe(env, start, steps, p) <==> AllFlushesLand(env, start, steps, p)
    ensures Legal(env, start, steps, p) ==> AlwaysSafe(env, start, steps, p)
  {
    StartInv(env, start, p);
    FlushesExact(env, start, steps, p);
    if Legal(env, start, steps, p) {
      AlignedWritesLand(env, start, steps, p);
    }
  }

  /**
   * New contents: when client files have changed between two runs, the same holds of the second run on a path that keeps
   * its content, or gets one that is unknown and on no other path.
   */
  lemma NewContentsAreSafe(env: Env, next: Env, start: System, steps: seq<Step>, more: seq<Step>, p: string)
    requires HashOk(env) && Started(start) && HashOk(next) && next.hash == env.hash && p in next.content
    requires Possible(env, start, steps)
    requires var s := Run(env, start, steps);
             if next.hash(next.content[p]) in s.server.db
             then p in env.content && env.content[p] == next.content[p] && DiskOkAt(env, start.server, p)
                  && Landing(env, start, steps, p)
             else Unique(next, p)
    requires Possible(next, Restarted(Run(env, start, steps)), more)
    ensures var r := Restarted(Run(env, start, steps));
            && (AlwaysSafe(next, r, more, p) <==> AllFlushesLand(next, r, more, p))
            && (Legal(next, r, more, p) ==> AlwaysSafe(next, r, more, p))
  {
    var r := Restarted(Run(env, start, steps));
    if Known(next, r.server, p) {
      ReachClean(env, start, steps, p);
    }
    StartExact(next, r, more, p);
  }
}
