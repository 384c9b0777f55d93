/**
 * Queries, in terms of what they were asked: what each branch answers, stores, primes and leaves alone, and over whole
 * runs which query a session and a stored record come from.
 */
module ProtocolQueries {
  import opened Wrappers
  import opened FileBytes
  import opened Protocol
  import opened ProtocolShape
  import opened ProtocolSafety
  import opened ProtocolRuns
  import opened ProtocolRecords
  import opened ProtocolHome
  import opened ProtocolLedger
  import SF = ServerFile
  import W = Worker

  // ----- single queries -----

  /** Both times of a record have a text. */
  predicate HasText(fmt: SF.TimeFormat, created: int, modified: int) {
    (created == SF.EPOCH || fmt.enc(created).Some?) && fmt.enc(modified).Some?
  }

  /** A session fresh from its query: nothing fed, nothing written, a pipe that is open. */
  predicate Primed(f: Session, path: string, key: string, mediaPrefix: string, size: nat, known: nat,
                   created: int, modified: int) {
    && f.path == path && f.key == key && f.mediaPrefix == mediaPrefix && f.size == size && f.currentSize == known
    && f.creationTime == created && f.modifiedTime == modified
    && !f.once && f.linked && f.pipeOpen && f.pipe == [] && f.buffer == [] && f.copied == 0 && f.position == 0
  }

  /** The removal of a miss: the name is gone, and the sessions on it go on without it. */
  lemma RemovalExact(a: Server, path: string)
    ensures var b := RemoveFile(a, path);
            && path !in b.disk && b.disk == a.disk - {path} && b.db == a.db && b.active == a.active
            && b.sessions.Keys == a.sessions.Keys
            && forall id :: id in a.sessions ==>
                 b.sessions[id] == a.sessions[id].(linked := a.sessions[id].linked && a.sessions[id].path != path)
  {
  }

  /**
   * The miss branch, whole. It fails if and only if a file is in the way that cannot be removed, and then nothing has
   * changed, or if a time has no text, and then the file is gone. Otherwise the record of the query is stored under its
   * hash, the client's session is the one just primed, and the reply is that of an empty or absent file.
   */
  lemma MissExact(env: Env, a: Server, id: nat, client: string, path: string, key: string, size: nat, meta: QueryMeta)
    ensures var (b, reply) := QueryMiss(env, a, id, client, path, key, size, meta);
            && (reply.QueryFailed? <==>
                  (path in a.disk && meta.removeFails) || !HasText(env.fmt, meta.createdAt, meta.modifiedAt))
            && (path in a.disk && meta.removeFails ==> b == a)
            && (!(path in a.disk && meta.removeFails) ==> b.disk - {path} == a.disk - {path})
            && (reply.QueryFailed? && !(path in a.disk && meta.removeFails) ==>
                  b.db == a.db && b.active == a.active && path !in b.disk)
  {
  }

  lemma MissAnswers(env: Env, a: Server, id: nat, client: string, path: string, key: string, size: nat, meta: QueryMeta)
    requires QueryMiss(env, a, id, client, path, key, size, meta).1.Reply?
    ensures var (b, reply) := QueryMiss(env, a, id, client, path, key, size, meta);
            && reply == W.Reply(if meta.sawCreated then env.hash([]) else "", 0, 0)
            && (path in b.disk <==> meta.sawCreated) && (meta.sawCreated ==> b.disk[path] == [])
            && b.active == a.active[client := id] && id in b.sessions
            && b.sessions[id].phase == (if meta.sawCreated then Opened else Created)
            && Primed(b.sessions[id], path, key, meta.mediaPrefix, size, 0, meta.createdAt, meta.modifiedAt)
  {
  }

  /** What is stored: the text of the record that the query asks for, and no other record is touched. */
  lemma MissStoresText(env: Env, a: Server, id: nat, client: string, path: string, key: string, size: nat, meta: QueryMeta)
    requires QueryMiss(env, a, id, client, path, key, size, meta).1.Reply?
    ensures var b := QueryMiss(env, a, id, client, path, key, size, meta).0;
            && key in b.db && b.db - {key} == a.db - {key}
            && SF.Encode(env.fmt, SF.Record(path, meta.mediaPrefix, size, 0, meta.createdAt, meta.modifiedAt)) == Some(b.db[key])
  {
  }

  /** It decodes, whatever it is decoded into, to the query's path, prefix, size and times, these exchanged, and to size 0. */
  lemma MissStores(env: Env, s: System, i: nat, meta: QueryMeta, into: SF.Record)
    requires RecordsFit(env) && Enabled(env, s, DoMiss(i, meta)) && SF.Plain(meta.mediaPrefix) && meta.createdAt != SF.EPOCH
    requires Apply(env, s, DoMiss(i, meta)).attempts[i].reply.Reply?
    ensures var (t, p) := (Apply(env, s, DoMiss(i, meta)), s.attempts[i].path);
            var key := env.hash(env.content[p]);
            && key in t.server.db && t.server.db - {key} == s.server.db - {key}
            && SF.Decode(env.fmt, t.server.db[key], into) ==
                 (SF.TimesExchanged(SF.Record(p, meta.mediaPrefix, |env.content[p]|, 0, meta.createdAt, meta.modifiedAt)), true)
  {
    var a := s.attempts[i];
    var c := env.content[a.path];
    MissStoresText(env, s.server, i, a.client, a.path, env.hash(c), |c|, meta);
    SF.PlainComesBack(env.fmt, SF.Record(a.path, meta.mediaPrefix, |c|, 0, meta.createdAt, meta.modifiedAt), into);
  }

  /**
   * The hit branch, whole. It fails if and only if the record does not decode, and then only that record is gone.
   * Otherwise it answers with the file as it is and primes a session, with the client's time and the disk's, if and only
   * if the file's hash is another one; nothing else changes.
   */
  lemma HitExact(env: Env, a: Server, id: nat, client: string, path: string, key: string, size: nat, meta: QueryMeta)
    requires key in a.db
    ensures var (b, reply) := QueryHit(env, a, id, client, path, key, size, meta);
            && b.disk == a.disk && (reply.QueryFailed? <==> !SF.Decodes(env.fmt, a.db[key]))
            && (reply.QueryFailed? ==> b == a.(db := a.db - {key}))
            && (reply.Reply? ==>
                  && reply.dataHash == (if path in a.disk then env.hash(a.disk[path]) else "")
                  && reply.size == |FileOnDisk(a, path)|
                  && reply.remoteSize == (if env.reportsSize then |FileOnDisk(a, path)| else 0)
                  && b.db == a.db && (reply.dataHash == key ==> b == a))
  {
  }

  lemma HitPrimes(env: Env, a: Server, id: nat, client: string, path: string, key: string, size: nat, meta: QueryMeta)
    requires key in a.db && QueryHit(env, a, id, client, path, key, size, meta).1.Reply?
    requires QueryHit(env, a, id, client, path, key, size, meta).1.dataHash != key
    ensures var b := QueryHit(env, a, id, client, path, key, size, meta).0;
            && b.active == a.active[client := id] && id in b.sessions && b.sessions - {id} == a.sessions - {id}
            && b.sessions[id].phase == Created
            && Primed(b.sessions[id], path, key, meta.mediaPrefix, size, |FileOnDisk(a, path)|, meta.clientTime,
                      if path in a.disk then meta.diskTime else SF.EPOCH)
  {
  }

  // ----- who asked -----

  /** The clients and paths of the queries of a run, in order. */
  function Asked(steps: seq<Step>): seq<(string, string)> {
    if steps == [] then []
    else (if steps[0].DoQuery? then [(steps[0].client, steps[0].path)] else []) + Asked(steps[1..])
  }

  predicate AskedAs(a: Attempt, q: (string, string)) {
    (a.client, a.path) == q
  }

  lemma StepAsked(env: Env, s: System, step: Step)
    requires Enabled(env, s, step)
    ensures var t := Apply(env, s, step);
            && |t.attempts| == |s.attempts| + |Asked([step])|
            && (forall i :: 0 <= i < |s.attempts| ==> AskedAs(t.attempts[i], (s.attempts[i].client, s.attempts[i].path)))
            && (step.DoQuery? ==> AskedAs(t.attempts[|s.attempts|], (step.client, step.path)))
  {
    assert [step][1..] == [];
  }

  /** Attempt i is the i-th query of the run, under the client and the path of that query, whatever happens later. */
  lemma {:induction false} AttemptsAreQueries(env: Env, s: System, steps: seq<Step>)
    requires Possible(env, s, steps)
    ensures var (t, n) := (Run(env, s, steps), |s.attempts|);
            && |t.attempts| == n + |Asked(steps)|
            && (forall i :: 0 <= i < n ==> AskedAs(t.attempts[i], (s.attempts[i].client, s.attempts[i].path)))
            && (forall i :: n <= i < |t.attempts| ==> AskedAs(t.attempts[i], Asked(steps)[i - n]))
    decreases |steps|
  {
    if steps != [] {
      var (u, t, n) := (Apply(env, s, steps[0]), Run(env, s, steps), |s.attempts|);
      StepAsked(env, s, steps[0]);
      AttemptsAreQueries(env, u, steps[1..]);
      assert [steps[0]][1..] == [];
      forall i | n <= i < |t.attempts| ensures AskedAs(t.attempts[i], Asked(steps)[i - n]) {
        if i < |u.attempts| {
          assert AskedAs(t.attempts[i], (u.attempts[i].client, u.attempts[i].path));
        }
      }
    }
  }

  /** A step of attempt i. */
  predicate ConcernsAttempt(step: Step, i: nat) {
    match step
    case DoMiss(j, meta) => j == i
    case DoBegin(j, io) => j == i
    case DoSend(j, n) => j == i
    case DoDeliver(j) => j == i
    case DoCut(j) => j == i
    case DoEnd(j, copyFails) => j == i
    case _ => false
  }

  /** No step changes an attempt that it is not of. */
  lemma OtherAttemptsStay(env: Env, s: System, step: Step, i: nat)
    requires Enabled(env, s, step) && i < |s.attempts| && !ConcernsAttempt(step, i)
    ensures i < |Apply(env, s, step).attempts| && Apply(env, s, step).attempts[i] == s.attempts[i]
  {
  }

  // ----- what the query of a session said -----

  /** The record that the step answering query `id` asks for, with no size reached yet. */
  function SaidBy(env: Env, s: System, step: Step, id: nat): Option<SF.Record>
    requires Enabled(env, s, step)
  {
    match step
    case DoQuery(client, path, meta) =>
      if id == |s.attempts| && env.hash(env.content[path]) in s.server.db
      then Some(SF.Record(path, meta.mediaPrefix, |env.content[path]|, 0, meta.clientTime,
                          if path in s.server.disk then meta.diskTime else SF.EPOCH))
      else None
    case DoMiss(i, meta) =>
      if id == i
      then Some(SF.Record(s.attempts[i].path, meta.mediaPrefix, |env.content[s.attempts[i].path]|, 0,
                          meta.createdAt, meta.modifiedAt))
      else None
    case _ => None
  }

  /** The same for a run: a query is answered once. */
  function Said(env: Env, s: System, steps: seq<Step>, id: nat): Option<SF.Record>
    requires Possible(env, s, steps)
    decreases |steps|
  {
    if steps == [] then None
    else if SaidBy(env, s, steps[0], id).Some? then SaidBy(env, s, steps[0], id)
    else Said(env, Apply(env, s, steps[0]), steps[1..], id)
  }

  /** The session carries what its query said. */
  predicate Carries(env: Env, f: Session, r: SF.Record) {
    RecordOf(f).(currentSize := 0) == r && f.path in env.content && f.key == env.hash(env.content[f.path])
  }

  /** No run makes a session speak of another query. */
  lemma {:induction false} RunKeepsQuery(env: Env, s: System, steps: seq<Step>, id: nat)
    requires Base(env, s) && Possible(env, s, steps) && id in s.server.sessions
    ensures id in Run(env, s, steps).server.sessions
    ensures SameQuery(s.server.sessions[id], Run(env, s, steps).server.sessions[id])
    decreases |steps|
  {
    if steps != [] {
      StepKeepsBase(env, s, steps[0]);
      StepGoesOn(env, s, steps[0], id);
      RunKeepsQuery(env, Apply(env, s, steps[0]), steps[1..], id);
    }
  }

  /** A step that makes a session answers its query, and the session carries what that query said. */
  lemma StepPrimes(env: Env, s: System, step: Step, id: nat)
    requires Base(env, s) && Enabled(env, s, step) && id !in s.server.sessions && id in Apply(env, s, step).server.sessions
    ensures SaidBy(env, s, step, id).Some?
    ensures Carries(env, Apply(env, s, step).server.sessions[id], SaidBy(env, s, step, id).value)
  {
    match step
    case DoQuery(client, path, meta) => AskPrimes(env, s, client, path, meta, id);
    case DoMiss(i, meta) => MissPrimes(env, s, i, meta, id);
    case DoFlush(j, k) => FlushParts(s.server, j, k);
    case DoFinish(j) => FinishSessions(env, s.server, j);
    case _ =>
  }

  lemma AskPrimes(env: Env, s: System, client: string, path: string, meta: QueryMeta, id: nat)
    requires Enabled(env, s, DoQuery(client, path, meta)) && id !in s.server.sessions
    requires id in Apply(env, s, DoQuery(client, path, meta)).server.sessions
    ensures var r := SaidBy(env, s, DoQuery(client, path, meta), id);
            r.Some? && Carries(env, Apply(env, s, DoQuery(client, path, meta)).server.sessions[id], r.value)
  {
    var (c, n) := (env.content[path], |s.attempts|);
    HitExact(env, s.server, n, client, path, env.hash(c), |c|, meta);
    HitPrimes(env, s.server, n, client, path, env.hash(c), |c|, meta);
  }

  lemma MissPrimes(env: Env, s: System, i: nat, meta: QueryMeta, id: nat)
    requires Base(env, s) && Enabled(env, s, DoMiss(i, meta)) && id !in s.server.sessions
    requires id in Apply(env, s, DoMiss(i, meta)).server.sessions
    ensures var r := SaidBy(env, s, DoMiss(i, meta), id);
            r.Some? && Carries(env, Apply(env, s, DoMiss(i, meta)).server.sessions[id], r.value)
  {
    var a := s.attempts[i];
    var c := env.content[a.path];
    MissIds(env, s.server, i, a.client, a.path, env.hash(c), |c|, meta);
    if QueryMiss(env, s.server, i, a.client, a.path, env.hash(c), |c|, meta).1.Reply? {
      MissAnswers(env, s.server, i, a.client, a.path, env.hash(c), |c|, meta);
    }
  }

  /** A query that has been answered primes no session later. */
  ghost predicate Settled(s: System, id: nat) {
    id < |s.attempts| && !s.attempts[id].phase.Asking? && id !in s.server.sessions
  }

  lemma SettledStep(env: Env, s: System, step: Step, id: nat)
    requires Base(env, s) && Enabled(env, s, step) && Settled(s, id)
    ensures Settled(Apply(env, s, step), id)
  {
    if id in Apply(env, s, step).server.sessions {
      StepPrimes(env, s, step, id);
    }
  }

  lemma {:induction false} SettledRun(env: Env, s: System, steps: seq<Step>, id: nat)
    requires Base(env, s) && Possible(env, s, steps) && Settled(s, id)
    ensures id !in Run(env, s, steps).server.sessions
    decreases |steps|
  {
    if steps != [] {
      StepKeepsBase(env, s, steps[0]);
      SettledStep(env, s, steps[0], id);
      SettledRun(env, Apply(env, s, steps[0]), steps[1..], id);
    }
  }

  lemma SaidSettles(env: Env, s: System, step: Step, id: nat)
    requires Base(env, s) && Enabled(env, s, step) && SaidBy(env, s, step, id).Some? && id !in Apply(env, s, step).server.sessions
    ensures Settled(Apply(env, s, step), id)
  {
    if step.DoMiss? {
      var a := s.attempts[id];
      MissHistory(env, s.server, id, a, step.meta);
    }
  }

  /** In every run a session carries what its own query said. */
  lemma {:induction false} SessionsAreQueries(env: Env, s: System, steps: seq<Step>, id: nat)
    requires Base(env, s) && Possible(env, s, steps) && id !in s.server.sessions && id in Run(env, s, steps).server.sessions
    ensures Said(env, s, steps, id).Some?
    ensures Carries(env, Run(env, s, steps).server.sessions[id], Said(env, s, steps, id).value)
    decreases |steps|
  {
    var u := Apply(env, s, steps[0]);
    StepKeepsBase(env, s, steps[0]);
    if id in u.server.sessions {
      StepPrimes(env, s, steps[0], id);
      RunKeepsQuery(env, u, steps[1..], id);
    } else {
      if SaidBy(env, s, steps[0], id).Some? {
        SaidSettles(env, s, steps[0], id);
        SettledRun(env, u, steps[1..], id);
      }
      SessionsAreQueries(env, u, steps[1..], id);
    }
  }

  /**
   * The record a session stores at its end is that of its own query, in every timely run: it is stored if and only if the
   * query's times have texts, under the hash of the query's content, and decodes to the query's path, prefix, size and
   * times, these exchanged, and to the size the writer has reached.
   */
  lemma RecordOfItsQuery(env: Env, start: System, steps: seq<Step>, id: nat, into: SF.Record)
    requires RecordsFit(env) && Begun(env, start) && Possible(env, start, steps) && TimelyRun(steps)
    requires Enabled(env, Run(env, start, steps), DoFinish(id))
    ensures Said(env, start, steps, id).Some?
    ensures var (s, t) := (Run(env, start, steps), Apply(env, Run(env, start, steps), DoFinish(id)));
            var r := Said(env, start, steps, id).value.(currentSize := s.server.sessions[id].position);
            && r.fullPath in env.content && id in t.server.sessions
            && (t.server.sessions[id].phase == Done <==> HasText(env.fmt, r.creationTime, r.modifiedTime))
            && (t.server.sessions[id].phase == Done ==>
                  var key := env.hash(env.content[r.fullPath]);
                  && key in t.server.db && SF.Decode(env.fmt, t.server.db[key], into) == (SF.TimesExchanged(r), true))
  {
    var s := Run(env, start, steps);
    RunKeepsRecords(env, start, steps);
    SessionsAreQueries(env, start, steps, id);
    var f := s.server.sessions[id];
    assert ShapeOk(env, s.server.disk, f) && SessionRecordOk(f);
    FinishStores(env, s.server, id, f, Said(env, start, steps, id).value.(currentSize := f.position), into);
  }

  lemma FinishStores(env: Env, a: Server, id: nat, f: Session, r: SF.Record, into: SF.Record)
    requires RecordsFit(env) && id in a.sessions && f == a.sessions[id] && SessionRecordOk(f) && f.path in env.content
    requires f.position == f.currentSize + f.copied && r == RecordOf(f).(currentSize := f.position)
    ensures var b := Finish(env, a, id);
            && id in b.sessions && (b.sessions[id].phase == Done <==> HasText(env.fmt, r.creationTime, r.modifiedTime))
            && (b.sessions[id].phase == Done ==>
                  f.key in b.db && SF.Decode(env.fmt, b.db[f.key], into) == (SF.TimesExchanged(r), true))
  {
    assert RecordOf(Counted(f)) == r;
    if SF.Encode(env.fmt, r).Some? {
      SF.PlainComesBack(env.fmt, r, into);
    }
  }

  // ----- what the database holds -----

  /** The key and the record a step stores, if it stores one. */
  function StoredBy(env: Env, s: System, step: Step): Option<(string, SF.Record)>
    requires Enabled(env, s, step)
  {
    match step
    case DoMiss(i, meta) =>
      var p := s.attempts[i].path;
      if (p in s.server.disk && meta.removeFails) || !HasText(env.fmt, meta.createdAt, meta.modifiedAt) then None
      else Some((env.hash(env.content[p]), SF.Record(p, meta.mediaPrefix, |env.content[p]|, 0, meta.createdAt, meta.modifiedAt)))
    case DoFinish(id) =>
      var f := s.server.sessions[id];
      if !HasText(env.fmt, f.creationTime, f.modifiedTime) then None
      else Some((f.key, SF.Record(f.path, f.mediaPrefix, f.size, (f.currentSize + f.copied) % SF.UINT64_LIMIT,
                                  f.creationTime, f.modifiedTime)))
    case _ => None
  }

  /** The last record a run stores under a key. */
  function LastStored(env: Env, s: System, steps: seq<Step>, key: string): Option<SF.Record>
    requires Possible(env, s, steps)
    decreases |steps|
  {
    if steps == [] then None
    else
      var later := LastStored(env, Apply(env, s, steps[0]), steps[1..], key);
      var now := StoredBy(env, s, steps[0]);
      if later.Some? then later else if now.Some? && now.value.0 == key then Some(now.value.1) else None
  }

  /** What the database holds under a key once a record may have been stored there. */
  ghost predicate Holds(env: Env, a: Server, b: Server, key: string, stored: Option<SF.Record>) {
    match stored
    case None => (key in b.db <==> key in a.db) && (key in a.db ==> b.db[key] == a.db[key])
    case Some(r) => key in b.db && SF.Encode(env.fmt, r) == Some(b.db[key])
  }

  lemma StepStores(env: Env, s: System, step: Step, key: string)
    requires DbOk(env, s.server) && Enabled(env, s, step)
    ensures var now := StoredBy(env, s, step);
            Holds(env, s.server, Apply(env, s, step).server, key,
                  if now.Some? && now.value.0 == key then Some(now.value.1) else None)
  {
    match step
    case DoQuery(client, path, meta) =>
      var c := env.content[path];
      if env.hash(c) in s.server.db {
        HitExact(env, s.server, |s.attempts|, client, path, env.hash(c), |c|, meta);
      }
    case DoMiss(i, meta) => MissDatabase(env, s, i, meta, key);
    case DoFlush(j, k) => FlushParts(s.server, j, k);
    case DoFinish(id) => FinishDatabase(env, s, id, key);
    case _ =>
  }

  lemma MissDatabase(env: Env, s: System, i: nat, meta: QueryMeta, key: string)
    requires Enabled(env, s, DoMiss(i, meta))
    ensures var now := StoredBy(env, s, DoMiss(i, meta));
            Holds(env, s.server, Miss(env, s, i, meta).server, key,
                  if now.Some? && now.value.0 == key then Some(now.value.1) else None)
  {
    var a := s.attempts[i];
    var c := env.content[a.path];
    var (b, reply) := QueryMiss(env, s.server, i, a.client, a.path, env.hash(c), |c|, meta);
    MissExact(env, s.server, i, a.client, a.path, env.hash(c), |c|, meta);
    if reply.Reply? {
      MissStoresText(env, s.server, i, a.client, a.path, env.hash(c), |c|, meta);
      if key != env.hash(c) {
        OtherKey(s.server.db, b.db, env.hash(c), key);
      }
    }
  }

  lemma OtherKey(a: map<string, string>, b: map<string, string>, stored: string, key: string)
    requires b - {stored} == a - {stored} && key != stored
    ensures (key in b <==> key in a) && (key in a ==> b[key] == a[key])
  {
    assert key in b <==> key in b - {stored};
    if key in a {
      assert (b - {stored})[key] == (a - {stored})[key];
    }
  }

  lemma FinishDatabase(env: Env, s: System, id: nat, key: string)
    requires Enabled(env, s, DoFinish(id))
    ensures var now := StoredBy(env, s, DoFinish(id));
            Holds(env, s.server, Finish(env, s.server, id), key,
                  if now.Some? && now.value.0 == key then Some(now.value.1) else None)
  {
    assert RecordOf(Counted(s.server.sessions[id])) == RecordOf(s.server.sessions[id]).(currentSize :=
      (s.server.sessions[id].currentSize + s.server.sessions[id].copied) % SF.UINT64_LIMIT);
  }

  /**
   * The database, whole: after every timely run the text under a key is that of the last record the run stored there, and
   * if it stored none, the key is as it was at the start.
   */
  lemma {:induction false} DatabaseExact(env: Env, s: System, steps: seq<Step>, key: string)
    requires RecordsFit(env) && Base(env, s) && Records(env, s) && Possible(env, s, steps) && TimelyRun(steps)
    ensures Holds(env, s.server, Run(env, s, steps).server, key, LastStored(env, s, steps, key))
    decreases |steps|
  {
    if steps != [] {
      StepKeepsBase(env, s, steps[0]);
      StepKeepsRecords(env, s, steps[0]);
      StepStores(env, s, steps[0], key);
      DatabaseExact(env, Apply(env, s, steps[0]), steps[1..], key);
    }
  }
}
