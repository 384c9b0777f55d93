/** What an undisturbed session makes of the server file, and that every job can still be finished from every state. */
module ProtocolProgress {
  import opened Wrappers
  import opened FileBytes
  import opened Protocol
  import opened ProtocolShape
  import opened ProtocolSafety
  import opened ProtocolRuns
  import opened ProtocolRecords
  import opened ProtocolOutcomes
  import S = Stream
  import SF = ServerFile
  import W = Worker

  // ----- chunk after chunk -----

  /** Attempt i streams to the session its own query primed, whose writer is copying and has nothing left to write. */
  ghost predicate Copying(env: Env, s: System, i: nat, a: Attempt, f: Session) {
    && i < |s.attempts| && a == s.attempts[i] && a.phase.Streaming? && a.path in env.content
    && a.client in s.server.active && s.server.active[a.client] == i
    && i in s.server.sessions && f == s.server.sessions[i] && f.phase == Writing && f.once
    && f.pipeOpen && f.pipe == [] && f.buffer == [] && f.linked && f.path == a.path && f.path in s.server.disk
    && f.position == a.phase.start.offset + a.sent && a.wire == [] && !a.cut
  }

  /** The attempt has n more bytes to send, at offsets that can be written. */
  predicate Room(env: Env, a: Attempt, n: nat) {
    Left(env, a, n) && a.phase.start.offset + a.sent + n < INT63_LIMIT
  }

  /** The attempt once its next n bytes have been sent and taken. */
  function Moved(a: Attempt, n: nat): Attempt {
    a.(sent := a.sent + n, got := a.got + n)
  }

  /** Sending the next n bytes and delivering them at once. */
  function Pass(i: nat, n: nat): seq<Step> {
    [DoSend(i, n)] + [DoDeliver(i)]
  }

  lemma PassMoves(env: Env, a: Attempt, n: nat)
    requires Left(env, a, n) && a.wire == [] && !a.cut
    ensures Sent(env, a, n).wire == [NextChunk(env, a, n)] && Received(Sent(env, a, n)) == Moved(a, n)
  {
    assert [NextChunk(env, a, n)][1..] == [] && [] + [NextChunk(env, a, n)] == [NextChunk(env, a, n)];
  }

  /** A chunk sent and delivered at once. */
  lemma PassRuns(env: Env, s: System, i: nat, a: Attempt, n: nat)
    requires i < |s.attempts| && a == s.attempts[i] && Left(env, a, n) && 0 < n <= W.DEFAULT_BLOCK_SIZE
    requires a.wire == [] && !a.cut && PipeFree(s.server, a.client)
    ensures Possible(env, s, Pass(i, n))
    ensures Run(env, s, Pass(i, n)) == System(Transfer(s.server, a.client, NextChunk(env, a, n)), s.attempts[i := Moved(a, n)])
    ensures forall p :: (HasSession(s.server, a.client) ==>
                           var f := s.server.sessions[s.server.active[a.client]];
                           f.path == p && Heard(f) ==> a.path == p && Aligned(s.server, f, NextChunk(env, a, n).offset))
                        ==> Legal(env, s, Pass(i, n), p)
  {
    PassMoves(env, a, n);
    var t := Apply(env, s, DoSend(i, n));
    OneStep(env, s, DoSend(i, n));
    OneStep(env, t, DoDeliver(i));
    RunSplit(env, s, [DoSend(i, n)], [DoDeliver(i)]);
    SeqTwice(s.attempts, i, Sent(env, a, n), Moved(a, n));
    forall p | Benign(env, t, DoDeliver(i), p) ensures Legal(env, s, Pass(i, n), p) {
      LegalJoin(env, s, [DoSend(i, n)], [DoDeliver(i)], p);
    }
  }

  /** To a current session whose pipe is free. */
  lemma Passes(env: Env, s: System, i: nat, a: Attempt, n: nat, id: nat)
    requires i < |s.attempts| && a == s.attempts[i] && Left(env, a, n) && 0 < n <= W.DEFAULT_BLOCK_SIZE
    requires a.wire == [] && !a.cut && a.client in s.server.active && s.server.active[a.client] == id
    requires id in s.server.sessions
    requires var f := s.server.sessions[id];
             && (f.pipeOpen ==> f.pipe == []) && f.path == a.path
             && Aligned(s.server, f, NextChunk(env, a, n).offset)
    ensures Legal(env, s, Pass(i, n), a.path)
    ensures Run(env, s, Pass(i, n)) ==
            System(PutSession(s.server, id, Feed(s.server.sessions[id], NextChunk(env, a, n))), s.attempts[i := Moved(a, n)])
  {
    PassRuns(env, s, i, a, n);
  }

  function FedSession(f: Session, n: nat): Session {
    f.(position := f.position + n, copied := f.copied + n)
  }

  /** A state with one file, one session and one attempt replaced. */
  function Put(s: System, i: nat, path: string, bytes: Bytes, f: Session, a: Attempt): System
    requires i < |s.attempts|
  {
    System(s.server.(disk := s.server.disk[path := bytes], sessions := s.server.sessions[i := f]), s.attempts[i := a])
  }

  lemma PutTwice(s: System, i: nat, path: string, b: Bytes, f: Session, a: Attempt, c: Bytes, g: Session, d: Attempt)
    requires i < |s.attempts|
    ensures Put(Put(s, i, path, b, f, a), i, path, c, g, d) == Put(s, i, path, c, g, d)
  {
    MapTwice(s.server.disk, path, b, c);
    MapTwice(s.server.sessions, i, f, g);
    SeqTwice(s.attempts, i, a, d);
  }

  /** The state once the next n bytes of the stream are in the file. */
  function Fed(env: Env, s: System, i: nat, a: Attempt, f: Session, n: nat): System
    requires Left(env, a, n) && i < |s.attempts| && f.path in s.server.disk
  {
    Put(s, i, f.path, WriteAt(s.server.disk[f.path], f.position, NextChunk(env, a, n).data), FedSession(f, n), Moved(a, n))
  }

  lemma FedKeepsCopying(env: Env, s: System, i: nat, a: Attempt, f: Session, n: nat)
    requires Copying(env, s, i, a, f) && Left(env, a, n)
    ensures Copying(env, Fed(env, s, i, a, f, n), i, Moved(a, n), FedSession(f, n))
  {
  }

  /** A chunk passed to a copying session, spelled out. */
  lemma PassParts(env: Env, s: System, i: nat, a: Attempt, f: Session, n: nat)
    requires Copying(env, s, i, a, f) && Left(env, a, n) && 0 < n <= W.DEFAULT_BLOCK_SIZE
    ensures Legal(env, s, Pass(i, n), a.path)
    ensures Run(env, s, Pass(i, n)) ==
            System(PutSession(s.server, i, f.(pipe := NextChunk(env, a, n).data)), s.attempts[i := Moved(a, n)])
  {
    assert [] + NextChunk(env, a, n).data == NextChunk(env, a, n).data;
    Passes(env, s, i, a, n, i);
  }

  /** Taking and writing a delivered chunk. */
  lemma DrainDelivered(env: Env, s: System, i: nat, a: Attempt, f: Session, n: nat, d: System)
    requires Copying(env, s, i, a, f) && Room(env, a, n) && 0 < n
    requires d == System(PutSession(s.server, i, f.(pipe := NextChunk(env, a, n).data)), s.attempts[i := Moved(a, n)])
    ensures Legal(env, d, [DoTake(i, n), DoFlush(i, n)], a.path)
    ensures Run(env, d, [DoTake(i, n), DoFlush(i, n)]) == Fed(env, s, i, a, f, n)
  {
    var data := NextChunk(env, a, n).data;
    assert data[..n] == data && data[n..] == [];
    var (g, h) := (f.(pipe := data), f.(buffer := data));
    var t := Apply(env, d, DoTake(i, n));
    MapTwice(s.server.sessions, i, g, h);
    assert t.server == PutSession(s.server, i, h);
    MapTwice(s.server.sessions, i, h, FedSession(f, n));
    OneStep(env, d, DoTake(i, n));
    OneStep(env, t, DoFlush(i, n));
    LegalJoin(env, d, [DoTake(i, n)], [DoFlush(i, n)], a.path);
    assert [DoTake(i, n)] + [DoFlush(i, n)] == [DoTake(i, n), DoFlush(i, n)];
  }

  function ChunkSteps(i: nat, n: nat): seq<Step> {
    Pass(i, n) + [DoTake(i, n), DoFlush(i, n)]
  }

  lemma FeedOne(env: Env, s: System, i: nat, a: Attempt, f: Session, n: nat)
    requires Copying(env, s, i, a, f) && Room(env, a, n) && 0 < n <= W.DEFAULT_BLOCK_SIZE
    ensures Legal(env, s, ChunkSteps(i, n), a.path) && Run(env, s, ChunkSteps(i, n)) == Fed(env, s, i, a, f, n)
  {
    PassParts(env, s, i, a, f, n);
    DrainDelivered(env, s, i, a, f, n, Run(env, s, Pass(i, n)));
    LegalJoin(env, s, Pass(i, n), [DoTake(i, n), DoFlush(i, n)], a.path);
  }

  lemma FedNothing(env: Env, s: System, i: nat, a: Attempt, f: Session)
    requires Copying(env, s, i, a, f) && Left(env, a, 0)
    ensures Fed(env, s, i, a, f, 0) == s
  {
    assert NextChunk(env, a, 0).data == [];
    UpdateSame(s.attempts, i);
  }

  lemma SentTwice(a: Attempt, f: Session, n: nat, m: nat)
    ensures Moved(Moved(a, n), m) == Moved(a, n + m)
    ensures FedSession(FedSession(f, n), m) == FedSession(f, n + m)
  {
  }

  lemma SliceJoin(c: Bytes, i: nat, j: nat, k: nat)
    requires i <= j <= k <= |c|
    ensures c[i..j] + c[j..k] == c[i..k]
  {
  }

  lemma ChunkParts(env: Env, a: Attempt, n: nat, m: nat)
    requires Left(env, a, n + m)
    ensures NextChunk(env, a, n).data + NextChunk(env, Moved(a, n), m).data == NextChunk(env, a, n + m).data
    ensures |NextChunk(env, a, n).data| == n
  {
    var at := a.phase.start.position + a.sent;
    SliceJoin(env.content[a.path], at, at + n, at + n + m);
  }

  /** The bytes of two deliveries in a row. */
  lemma WrittenTwice(env: Env, a: Attempt, n: nat, m: nat, file: Bytes, at: nat) returns (x: Bytes, y: Bytes)
    requires Left(env, a, n + m)
    ensures x == WriteAt(file, at, NextChunk(env, a, n).data) && y == WriteAt(file, at, NextChunk(env, a, n + m).data)
    ensures y == WriteAt(x, at + n, NextChunk(env, Moved(a, n), m).data)
  {
    ChunkParts(env, a, n, m);
    x, y := WriteTwice(file, at, NextChunk(env, a, n).data, at + n, NextChunk(env, Moved(a, n), m).data, NextChunk(env, a, n + m).data);
  }

  lemma FedIs(env: Env, s: System, i: nat, a: Attempt, f: Session, n: nat, bytes: Bytes)
    requires i < |s.attempts| && f.path in s.server.disk && Left(env, a, n)
    requires bytes == WriteAt(s.server.disk[f.path], f.position, NextChunk(env, a, n).data)
    ensures Fed(env, s, i, a, f, n) == Put(s, i, f.path, bytes, FedSession(f, n), Moved(a, n))
  {
  }

  lemma FedTwice(env: Env, s: System, i: nat, a: Attempt, f: Session, n: nat, m: nat)
    requires i < |s.attempts| && f.path in s.server.disk && Left(env, a, n + m)
    ensures Fed(env, Fed(env, s, i, a, f, n), i, Moved(a, n), FedSession(f, n), m) == Fed(env, s, i, a, f, n + m)
  {
    var x, y := WrittenTwice(env, a, n, m, s.server.disk[f.path], f.position);
    FedChain(env, s, i, a, f, n, m, Fed(env, s, i, a, f, n), x, y);
  }

  lemma FedChain(env: Env, s: System, i: nat, a: Attempt, f: Session, n: nat, m: nat, t: System, x: Bytes, y: Bytes)
    requires i < |s.attempts| && f.path in s.server.disk && Left(env, a, n + m) && t == Fed(env, s, i, a, f, n)
    requires x == WriteAt(s.server.disk[f.path], f.position, NextChunk(env, a, n).data)
    requires y == WriteAt(s.server.disk[f.path], f.position, NextChunk(env, a, n + m).data)
    requires y == WriteAt(x, f.position + n, NextChunk(env, Moved(a, n), m).data)
    ensures Fed(env, t, i, Moved(a, n), FedSession(f, n), m) == Fed(env, s, i, a, f, n + m)
  {
    SentTwice(a, f, n, m);
    FedIs(env, s, i, a, f, n, x);
    FedIs(env, t, i, Moved(a, n), FedSession(f, n), m, y);
    FedIs(env, s, i, a, f, n + m, y);
    PutTwice(s, i, f.path, x, FedSession(f, n), Moved(a, n), y, FedSession(f, n + m), Moved(a, n + m));
  }

  /** Sizes of non-empty reads of at most one block. */
  predicate Blocked(cuts: seq<nat>) {
    cuts == [] || (0 < cuts[0] <= W.DEFAULT_BLOCK_SIZE && Blocked(cuts[1..]))
  }

  /** A whole stream of chunks, each taken and written before the next one comes. */
  function StreamSteps(i: nat, cuts: seq<nat>): seq<Step> {
    if cuts == [] then [] else ChunkSteps(i, cuts[0]) + StreamSteps(i, cuts[1..])
  }

  /** One chunk before steps that are known to run. */
  lemma FeedMore(env: Env, s: System, i: nat, a: Attempt, f: Session, n: nat, rest: seq<Step>, m: nat, all: seq<Step>)
    requires Copying(env, s, i, a, f) && Room(env, a, n + m) && 0 < n <= W.DEFAULT_BLOCK_SIZE
    requires all == ChunkSteps(i, n) + rest
    requires var t := Fed(env, s, i, a, f, n);
             Legal(env, t, rest, a.path) && Run(env, t, rest) == Fed(env, t, i, Moved(a, n), FedSession(f, n), m)
    ensures Legal(env, s, all, a.path) && Run(env, s, all) == Fed(env, s, i, a, f, n + m)
  {
    FeedOne(env, s, i, a, f, n);
    LegalJoin(env, s, ChunkSteps(i, n), rest, a.path);
    FedTwice(env, s, i, a, f, n, m);
  }

  lemma RoomRest(env: Env, a: Attempt, n: nat, m: nat)
    requires Room(env, a, n + m)
    ensures Room(env, Moved(a, n), m) && Left(env, a, n)
  {
  }

  lemma FeedNone(env: Env, s: System, i: nat, a: Attempt, f: Session)
    requires Copying(env, s, i, a, f) && Left(env, a, 0)
    ensures Legal(env, s, StreamSteps(i, []), a.path) && Run(env, s, StreamSteps(i, [])) == Fed(env, s, i, a, f, 0)
  {
    FedNothing(env, s, i, a, f);
  }

  /** Every cut stream goes into the file as one write. */
  lemma {:induction false} StreamIsWritten(env: Env, s: System, i: nat, a: Attempt, f: Session, cuts: seq<nat>, total: nat)
    requires Copying(env, s, i, a, f) && Room(env, a, total) && total == S.Sum(cuts) && Blocked(cuts)
    ensures Legal(env, s, StreamSteps(i, cuts), a.path)
    ensures Run(env, s, StreamSteps(i, cuts)) == Fed(env, s, i, a, f, total)
    decreases |cuts|, 1
  {
    if cuts == [] {
      FeedNone(env, s, i, a, f);
    } else {
      FeedSome(env, s, i, a, f, cuts[0], cuts[1..], S.Sum(cuts[1..]), StreamSteps(i, cuts));
    }
  }

  lemma {:induction false} FeedSome(env: Env, s: System, i: nat, a: Attempt, f: Session, n: nat, cuts: seq<nat>, m: nat, all: seq<Step>)
    requires Copying(env, s, i, a, f) && Room(env, a, n + m) && 0 < n <= W.DEFAULT_BLOCK_SIZE && m == S.Sum(cuts)
    requires Blocked(cuts)
    requires all == ChunkSteps(i, n) + StreamSteps(i, cuts)
    ensures Legal(env, s, all, a.path) && Run(env, s, all) == Fed(env, s, i, a, f, n + m)
    decreases |cuts|, 2
  {
    FedKeepsCopying(env, s, i, a, f, n);
    RoomRest(env, a, n, m);
    StreamIsWritten(env, Fed(env, s, i, a, f, n), i, Moved(a, n), FedSession(f, n), cuts, m);
    FeedMore(env, s, i, a, f, n, StreamSteps(i, cuts), m, all);
  }

  // ----- the chunk that opens the session -----

  /** Attempt i is about to send its first chunk, into the file, and the writer of its session is waiting for it. */
  ghost predicate Expecting(env: Env, s: System, i: nat, a: Attempt, f: Session) {
    && i < |s.attempts| && a == s.attempts[i] && a.phase.Streaming? && Unsent(a) && a.path in env.content
    && a.client in s.server.active && s.server.active[a.client] == i
    && i in s.server.sessions && f == s.server.sessions[i] && f.phase == Waiting && !f.once && f.copied == 0
    && f.pipeOpen && f.pipe == [] && f.buffer == [] && f.linked && f.path == a.path && f.path in s.server.disk
    && a.phase.start.offset <= |s.server.disk[a.path]|
  }

  /** The session whose writer has been given the offset. */
  function Woken(f: Session, offset: nat): Session {
    f.(once := true, currentSize := offset, phase := Writing, position := offset)
  }

  function FirstSteps(i: nat, n: nat): seq<Step> {
    Pass(i, n) + ([DoSeek(i)] + [DoTake(i, n), DoFlush(i, n)])
  }

  lemma FirstDelivered(env: Env, s: System, i: nat, a: Attempt, f: Session, n: nat)
    requires Expecting(env, s, i, a, f) && Room(env, a, n) && 0 < n <= W.DEFAULT_BLOCK_SIZE
    ensures Legal(env, s, Pass(i, n), a.path)
    ensures var t := Run(env, s, Pass(i, n));
            && Legal(env, t, [DoSeek(i)], a.path)
            && Run(env, t, [DoSeek(i)]) ==
               System(PutSession(s.server, i, Woken(f, a.phase.start.offset).(pipe := NextChunk(env, a, n).data)),
                      s.attempts[i := Moved(a, n)])
  {
    var data := NextChunk(env, a, n).data;
    assert [] + data == data;
    Passes(env, s, i, a, n, i);
    var t := Run(env, s, Pass(i, n));
    var g := f.(once := true, currentSize := a.phase.start.offset, phase := Signalled, pipe := data);
    assert t.server == PutSession(s.server, i, g);
    OneStep(env, t, DoSeek(i));
    MapTwice(s.server.sessions, i, g, Woken(f, a.phase.start.offset).(pipe := data));
  }

  lemma FeedFirst(env: Env, s: System, i: nat, a: Attempt, f: Session, n: nat)
    requires Expecting(env, s, i, a, f) && Room(env, a, n) && 0 < n <= W.DEFAULT_BLOCK_SIZE
    ensures Legal(env, s, FirstSteps(i, n), a.path)
    ensures Run(env, s, FirstSteps(i, n)) == Fed(env, s, i, a, Woken(f, a.phase.start.offset), n)
  {
    var g := Woken(f, a.phase.start.offset);
    var awake := s.(server := PutSession(s.server, i, g));
    FirstDelivered(env, s, i, a, f, n);
    var t := Run(env, s, Pass(i, n));
    var d := Run(env, t, [DoSeek(i)]);
    MapTwice(s.server.sessions, i, g, g.(pipe := NextChunk(env, a, n).data));
    DrainDelivered(env, awake, i, a, g, n, d);
    MapTwice(s.server.sessions, i, g, FedSession(g, n));
    LegalJoin(env, t, [DoSeek(i)], [DoTake(i, n), DoFlush(i, n)], a.path);
    LegalJoin(env, s, Pass(i, n), [DoSeek(i)] + [DoTake(i, n), DoFlush(i, n)], a.path);
  }

  // ----- an undisturbed session -----

  /** The requests of a stream whose reads return the sizes `cuts`. */
  function Requests(c: Bytes, at: nat, offset: nat, cuts: seq<nat>): seq<Chunk>
    requires at + S.Sum(cuts) <= |c|
    decreases |cuts|
  {
    if cuts == [] then [] else [Chunk(offset, c[at..at + cuts[0]])] + Requests(c, at + cuts[0], offset + cuts[0], cuts[1..])
  }

  lemma {:induction false} RequestsCarry(c: Bytes, at: nat, offset: nat, cuts: seq<nat>)
    requires at + S.Sum(cuts) <= |c|
    ensures var r := Requests(c, at, offset, cuts);
            Contiguous(offset, r) && Payload(r) == c[at..at + S.Sum(cuts)]
    decreases |cuts|
  {
    if cuts != [] {
      RequestsCarry(c, at + cuts[0], offset + cuts[0], cuts[1..]);
      assert c[at..at + S.Sum(cuts)] == c[at..at + cuts[0]] + c[at + cuts[0]..at + S.Sum(cuts)];
    }
  }

  lemma TakeToEnd(c: Bytes, at: nat, end: nat)
    requires at <= end == |c|
    ensures c[at..end] == c[at..]
  {
  }

  /** content[o..] written over an old file at o. */
  lemma RestOverOld(old_: Bytes, c: Bytes, o: nat, end: nat, file: Bytes)
    requires o <= |old_| && o <= end == |c| && file == WriteAt(old_, o, c[o..end])
    ensures file == c <==> old_[..o] == c[..o] && |old_| <= |c|
    ensures |file| == Max(|old_|, |c|)
  {
    TakeToEnd(c, o, end);
    TailWritten(old_, c, o);
    PartsEqual(c, old_[..o], if |c| <= |old_| then old_[|c|..] else [], o);
  }

  function SessionSteps(i: nat, cuts: seq<nat>): seq<Step>
    requires cuts != []
  {
    FirstSteps(i, cuts[0]) + StreamSteps(i, cuts[1..])
  }

  lemma SessionFed(env: Env, s: System, i: nat, a: Attempt, f: Session, cuts: seq<nat>, total: nat) returns (t: System)
    requires Expecting(env, s, i, a, f) && Room(env, a, total) && total == S.Sum(cuts) && cuts != [] && Blocked(cuts)
    ensures Legal(env, s, SessionSteps(i, cuts), a.path)
    ensures Run(env, s, SessionSteps(i, cuts)) == t == Fed(env, s, i, a, Woken(f, a.phase.start.offset), total)
  {
    var (n, g) := (cuts[0], Woken(f, a.phase.start.offset));
    var m := S.Sum(cuts[1..]);
    assert total == n + m;
    RoomRest(env, a, n, m);
    FeedFirst(env, s, i, a, f, n);
    SessionRest(env, s, i, a, f, g, n, cuts[1..], m);
    LegalJoin(env, s, FirstSteps(i, n), StreamSteps(i, cuts[1..]), a.path);
    t := Fed(env, s, i, a, g, total);
  }

  lemma SessionRest(env: Env, s: System, i: nat, a: Attempt, f: Session, g: Session, n: nat, cuts: seq<nat>, m: nat)
    requires Expecting(env, s, i, a, f) && g == Woken(f, a.phase.start.offset) && Room(env, a, n + m) && m == S.Sum(cuts)
    requires Blocked(cuts)
    ensures Legal(env, Fed(env, s, i, a, g, n), StreamSteps(i, cuts), a.path)
    ensures Run(env, Fed(env, s, i, a, g, n), StreamSteps(i, cuts)) == Fed(env, s, i, a, g, n + m)
  {
    var awake := s.(server := PutSession(s.server, i, g));
    var t := Fed(env, awake, i, a, g, n);
    FedAwake(env, s, i, a, f, g, n);
    FedAwake(env, s, i, a, f, g, n + m);
    assert Copying(env, awake, i, a, g);
    FedKeepsCopying(env, awake, i, a, g, n);
    FedTwice(env, awake, i, a, g, n, m);
    StreamIsWritten(env, t, i, Moved(a, n), FedSession(g, n), cuts, m);
  }

  lemma FedAwake(env: Env, s: System, i: nat, a: Attempt, f: Session, g: Session, n: nat)
    requires Expecting(env, s, i, a, f) && Left(env, a, n) && g.path == f.path
    ensures Fed(env, s.(server := PutSession(s.server, i, g)), i, a, g, n) == Fed(env, s, i, a, g, n)
  {
    MapTwice(s.server.sessions, i, g, FedSession(g, n));
  }

  lemma SessionWrites(env: Env, s: System, i: nat, a: Attempt, f: Session, cuts: seq<nat>, total: nat, steps: seq<Step>)
    returns (file: Bytes)
    requires Expecting(env, s, i, a, f) && Room(env, a, total) && total == S.Sum(cuts) && cuts != [] && Blocked(cuts)
    requires steps == SessionSteps(i, cuts)
    ensures Legal(env, s, steps, a.path)
    ensures file == WriteAt(s.server.disk[a.path], a.phase.start.offset,
                            env.content[a.path][a.phase.start.position..a.phase.start.position + total])
    ensures var t := Run(env, s, steps);
            && t.server.db == s.server.db && |t.attempts| == |s.attempts| && a.path in t.server.disk
            && t.server.disk[a.path] == file
  {
    var t := SessionFed(env, s, i, a, f, cuts, total);
    FedFile(env, s, i, a, Woken(f, a.phase.start.offset), total, t);
    file := t.server.disk[a.path];
  }

  lemma RequestsWrite(old_: Bytes, c: Bytes, at: nat, offset: nat, cuts: seq<nat>, r: seq<Chunk>, file: Bytes)
    requires at + S.Sum(cuts) <= |c| && r == Requests(c, at, offset, cuts)
    requires file == WriteAt(old_, offset, c[at..at + S.Sum(cuts)])
    ensures file == WriteEach(old_, r) == SessionResult(old_, r)
  {
    RequestsCarry(c, at, offset, cuts);
    AppendRefinesOffsets(old_, offset, r);
  }

  /**
   * An undisturbed session, step by step, in any state, safe or not: the file becomes what writing each request at
   * its own claimed offset makes of it.
   */
  lemma SessionRefinesRequests(env: Env, s: System, i: nat, a: Attempt, f: Session, cuts: seq<nat>, requests: seq<Chunk>)
    requires Expecting(env, s, i, a, f) && Room(env, a, S.Sum(cuts)) && cuts != [] && Blocked(cuts)
    requires requests == Requests(env.content[a.path], a.phase.start.position, a.phase.start.offset, cuts)
    ensures Legal(env, s, SessionSteps(i, cuts), a.path)
    ensures var (old_, t) := (s.server.disk[a.path], Run(env, s, SessionSteps(i, cuts)));
            a.path in t.server.disk && t.server.disk[a.path] == WriteEach(old_, requests) == SessionResult(old_, requests)
  {
    var file := SessionWrites(env, s, i, a, f, cuts, S.Sum(cuts), SessionSteps(i, cuts));
    RequestsWrite(s.server.disk[a.path], env.content[a.path], a.phase.start.position, a.phase.start.offset, cuts, requests, file);
  }

  lemma FedFile(env: Env, s: System, i: nat, a: Attempt, g: Session, n: nat, t: System)
    requires Left(env, a, n) && a.sent == 0 && i < |s.attempts| && g.path in s.server.disk
    requires t == Fed(env, s, i, a, g, n)
    ensures var at := a.phase.start.position;
            && t.server.db == s.server.db && |t.attempts| == |s.attempts| && g.path in t.server.disk
            && t.server.disk[g.path] == WriteAt(s.server.disk[g.path], g.position, env.content[a.path][at..at + n])
  {
  }

  // ----- finishing a job -----

  /** Timely steps that leave the pending queries of the first n attempts pending. */
  predicate Calm(steps: seq<Step>, n: nat) {
    forall k :: 0 <= k < |steps| ==> Timely(steps[k]) && !(steps[k].DoMiss? && steps[k].attempt < n)
  }

  lemma CalmJoin(a: seq<Step>, b: seq<Step>, n: nat)
    requires Calm(a, n) && Calm(b, n)
    ensures Calm(a + b, n)
  {
  }

  lemma CalmChunk(j: nat, k: nat, n: nat)
    ensures Calm(Pass(j, k), n) && Calm(ChunkSteps(j, k), n) && Calm(FirstSteps(j, k), n)
  {
    var write := [DoTake(j, k), DoFlush(j, k)];
    CalmJoin([DoSend(j, k)], [DoDeliver(j)], n);
    CalmJoin(Pass(j, k), write, n);
    CalmJoin([DoSeek(j)], write, n);
    CalmJoin(Pass(j, k), [DoSeek(j)] + write, n);
  }

  lemma {:induction false} CalmStream(j: nat, cuts: seq<nat>, n: nat)
    ensures Calm(StreamSteps(j, cuts), n)
  {
    if cuts != [] {
      CalmChunk(j, cuts[0], n);
      CalmStream(j, cuts[1..], n);
      CalmJoin(ChunkSteps(j, cuts[0]), StreamSteps(j, cuts[1..]), n);
    }
  }

  lemma CalmRest(steps: seq<Step>, n: nat)
    requires Calm(steps, n) && steps != []
    ensures Calm(steps[1..], n) && Timely(steps[0])
  {
    forall k | 0 <= k < |steps[1..]| ensures Timely(steps[1..][k]) && !(steps[1..][k].DoMiss? && steps[1..][k].attempt < n) {
      assert steps[1..][k] == steps[k + 1];
    }
  }

  lemma {:induction false} CalmIsTimely(steps: seq<Step>, n: nat)
    requires Calm(steps, n)
    ensures TimelyRun(steps)
  {
    if steps != [] {
      CalmRest(steps, n);
      CalmIsTimely(steps[1..], n);
    }
  }

  lemma StepStaysPending(env: Env, s: System, step: Step, i: nat)
    requires Enabled(env, s, step) && i < |s.attempts| && s.attempts[i].phase.Asking? && HistoryOk(env, s.attempts[i])
    requires !(step.DoMiss? && step.attempt == i)
    ensures i < |Apply(env, s, step).attempts| && Apply(env, s, step).attempts[i] == s.attempts[i]
  {
  }

  /** Nothing but its own miss moves a pending query. */
  lemma {:induction false} StaysPending(env: Env, s: System, steps: seq<Step>, n: nat, i: nat)
    requires Base(env, s) && Possible(env, s, steps) && Calm(steps, n)
    requires i < n && i < |s.attempts| && s.attempts[i].phase.Asking?
    ensures i < |Run(env, s, steps).attempts| && Run(env, s, steps).attempts[i] == s.attempts[i]
    decreases |steps|
  {
    if steps != [] {
      assert !(steps[0].DoMiss? && steps[0].attempt < n);
      StepStaysPending(env, s, steps[0], i);
      StepKeepsBase(env, s, steps[0]);
      CalmRest(steps, n);
      StaysPending(env, Apply(env, s, steps[0]), steps[1..], n, i);
    }
  }

  /** The session a query has just primed for its own attempt. */
  ghost predicate Fresh(s: System, j: nat, client: string, path: string) {
    && client in s.server.active && s.server.active[client] == j && At(s, j, Created)
    && var f := s.server.sessions[j];
       !f.once && f.copied == 0 && f.pipeOpen && f.pipe == [] && f.buffer == [] && f.linked && f.path == path
  }

  /** The latest attempt asked for the path and has been answered; it has a session unless the content is there already. */
  ghost predicate Answered(env: Env, s: System, client: string, path: string, phase: AttemptPhase) {
    && path in env.content && |s.attempts| > 0 && Known(env, s.server, path)
    && var (j, a) := (|s.attempts| - 1, s.attempts[|s.attempts| - 1]);
       && a.client == client && a.path == path && a.phase == phase && Unsent(a) && a.reply.Reply?
       && SeenBytes(a) == FileOnDisk(s.server, path)
       && (a.reply.dataHash != env.hash(env.content[path]) ==> Fresh(s, j, client, path))
  }

  lemma HitAnswered(env: Env, s: System, client: string, path: string, meta: QueryMeta)
    requires DbOk(env, s.server) && path in env.content && Known(env, s.server, path)
    ensures var t := Ask(env, s, client, path, meta);
            Answered(env, t, client, path, Replied) && t.server.disk == s.server.disk && |t.attempts| == |s.attempts| + 1
  {
  }

  lemma MissAnswered(env: Env, s: System, meta: QueryMeta)
    requires GoodMeta(env, meta) && s.attempts != [] && s.attempts[|s.attempts| - 1].path in env.content
    requires var a := s.attempts[|s.attempts| - 1]; a.phase == Asking(meta.mediaPrefix) && Unsent(a)
    ensures var (a, t) := (s.attempts[|s.attempts| - 1], Miss(env, s, |s.attempts| - 1, meta));
            Answered(env, t, a.client, a.path, Replied) && FileOnDisk(t.server, a.path) == []
  {
    var a := s.attempts[|s.attempts| - 1];
    var c := env.content[a.path];
    var f := NewSession(a.path, env.hash(c), meta.mediaPrefix, |c|, 0, meta.createdAt, meta.modifiedAt);
    assert SF.Encode(env.fmt, RecordOf(f)).Some?;
  }

  /** Asking for a path, to the end. */
  function AskSteps(env: Env, s: System, client: string, path: string, meta: QueryMeta): seq<Step>
    requires path in env.content
  {
    if env.hash(env.content[path]) in s.server.db then [DoQuery(client, path, meta)]
    else [DoQuery(client, path, meta)] + [DoMiss(|s.attempts|, meta)]
  }

  lemma AskAnswered(env: Env, s: System, client: string, path: string, meta: QueryMeta)
    requires DbOk(env, s.server) && GoodMeta(env, meta) && path in env.content
    ensures var steps := AskSteps(env, s, client, path, meta);
            && Legal(env, s, steps, path) && Answered(env, Run(env, s, steps), client, path, Replied)
            && |Run(env, s, steps).attempts| == |s.attempts| + 1
            && FileOnDisk(Run(env, s, steps).server, path) == if Known(env, s.server, path) then FileOnDisk(s.server, path) else []
  {
    var step := DoQuery(client, path, meta);
    OneStep(env, s, step);
    if Known(env, s.server, path) {
      HitAnswered(env, s, client, path, meta);
    } else {
      var t := Apply(env, s, step);
      OneStep(env, t, DoMiss(|s.attempts|, meta));
      LegalJoin(env, s, [step], [DoMiss(|s.attempts|, meta)], path);
      MissAnswered(env, t, meta);
    }
  }

  /** A file that a job can complete: a prefix of the content, or for today's server any file that is not longer. */
  ghost predicate Fixable(env: Env, file: Bytes, c: Bytes) {
    file <= c || (!env.reportsSize && NoCollision(env) && |file| <= |c|)
  }

  /** The test is passed only over the whole content. */
  lemma CompleteSees(env: Env, a: Attempt)
    requires HashOk(env) && HistoryOk(env, a) && a.reply.Reply? && Fixable(env, SeenBytes(a), env.content[a.path])
    requires a.reply.dataHash == env.hash(env.content[a.path]) || a.reply.remoteSize == |env.content[a.path]|
    ensures SeenBytes(a) == env.content[a.path]
  {
    if a.seen.Some? {
      assert env.hash(a.seen.value) != "";
      if a.seen.value <= env.content[a.path] && env.hash(a.seen.value) == env.hash(env.content[a.path]) {
        PrefixHash(env, a.path, a.seen.value, a.path);
      }
    }
  }

  /** The job's decision: complete, or a transfer with something left to send. */
  lemma DecideWell(env: Env, a: Attempt)
    requires HashOk(env) && HistoryOk(env, a) && a.reply.Reply? && Fixable(env, SeenBytes(a), env.content[a.path])
    ensures var d := Decide(env, a, ALL_WELL);
            d == Complete(true) ||
            (d.Streaming? && d.start.offset == d.start.position < |env.content[a.path]|
             && d.start.offset <= |SeenBytes(a)| && a.reply.dataHash != env.hash(env.content[a.path]))
  {
    if a.seen.Some? {
      assert env.hash(a.seen.value) != "";
    }
    if a.reply.remoteSize <= |env.content[a.path]| {
      W.StartPositionExact(env.content[a.path], env.hash, a.reply, ALL_WELL);
    }
  }

  /** What a job makes of its answer. */
  ghost predicate Launched(env: Env, s: System, client: string, path: string, phase: AttemptPhase) {
    && Answered(env, s, client, path, phase)
    && (phase == Complete(true) ||
        (phase.Streaming? && phase.start.offset == phase.start.position < |env.content[path]|
         && phase.start.offset <= |FileOnDisk(s.server, path)| && Fresh(s, |s.attempts| - 1, client, path)))
  }

  lemma Decided(env: Env, s: System, client: string, path: string)
    requires HashOk(env) && Base(env, s) && Answered(env, s, client, path, Replied)
    requires Fixable(env, FileOnDisk(s.server, path), env.content[path])
    ensures var (step, j) := (DoBegin(|s.attempts| - 1, ALL_WELL), |s.attempts| - 1);
            && Legal(env, s, [step], path)
            && var t := Run(env, s, [step]);
               t.server == s.server && |t.attempts| == |s.attempts| && Launched(env, t, client, path, t.attempts[j].phase)
  {
    var j := |s.attempts| - 1;
    var a := s.attempts[j];
    assert HistoryOk(env, a);
    DecideWell(env, a);
    OneStep(env, s, DoBegin(j, ALL_WELL));
    LaunchedFrom(env, s, client, path, Decide(env, a, ALL_WELL));
  }

  lemma LaunchedFrom(env: Env, s: System, client: string, path: string, d: AttemptPhase)
    requires Answered(env, s, client, path, Replied)
    requires var a := s.attempts[|s.attempts| - 1];
             d == Complete(true) ||
             (d.Streaming? && d.start.offset == d.start.position < |env.content[path]|
              && d.start.offset <= |SeenBytes(a)| && a.reply.dataHash != env.hash(env.content[path]))
    ensures var j := |s.attempts| - 1;
            Launched(env, s.(attempts := s.attempts[j := s.attempts[j].(phase := d)]), client, path, d)
  {
  }

  /** The writer opens the file and waits. */
  lemma Waits(env: Env, s: System, client: string, path: string, phase: AttemptPhase)
    requires Launched(env, s, client, path, phase) && phase.Streaming?
    ensures var (j, steps) := (|s.attempts| - 1, [DoOpen(|s.attempts| - 1)] + [DoWait(|s.attempts| - 1)]);
            && Legal(env, s, steps, path)
            && var t := Run(env, s, steps);
               && t.attempts == s.attempts && j in t.server.sessions && t.server.db == s.server.db
               && Expecting(env, t, j, t.attempts[j], t.server.sessions[j])
               && FileOnDisk(t.server, path) == FileOnDisk(s.server, path)
  {
    var j := |s.attempts| - 1;
    OneStep(env, s, DoOpen(j));
    var t := Apply(env, s, DoOpen(j));
    OneStep(env, t, DoWait(j));
    LegalJoin(env, s, [DoOpen(j)], [DoWait(j)], path);
  }

  /** Sizes of at most one block that add up. */
  function Blocks(total: nat): (cuts: seq<nat>)
    ensures S.Sum(cuts) == total && Blocked(cuts)
  {
    if total == 0 then []
    else if total <= W.DEFAULT_BLOCK_SIZE then [total]
    else [W.DEFAULT_BLOCK_SIZE] + Blocks(total - W.DEFAULT_BLOCK_SIZE)
  }

  /** The steps that send all the rest of attempt j. */
  function RestSteps(env: Env, a: Attempt, j: nat): seq<Step>
    requires a.phase.Streaming? && a.path in env.content && a.phase.start.position < |env.content[a.path]|
  {
    SessionSteps(j, Blocks(|env.content[a.path]| - a.phase.start.position))
  }

  /** Sending all the rest leaves the old file up to the offset and the content from there on, in any state. */
  lemma RestWritten(env: Env, s: System, j: nat, a: Attempt, f: Session) returns (file: Bytes)
    requires Expecting(env, s, j, a, f) && |env.content[a.path]| < INT63_LIMIT
    requires a.phase.start.offset == a.phase.start.position < |env.content[a.path]|
    ensures Legal(env, s, RestSteps(env, a, j), a.path)
    ensures var (t, c, old_) := (Run(env, s, RestSteps(env, a, j)), env.content[a.path], s.server.disk[a.path]);
            && t.server.db == s.server.db && |t.attempts| == |s.attempts| && a.path in t.server.disk
            && t.server.disk[a.path] == file
            && (file == c <==> old_[..a.phase.start.offset] == c[..a.phase.start.offset] && |old_| <= |c|)
            && (|old_| <= |c| ==> |file| == |c|)
  {
    var cuts := Blocks(|env.content[a.path]| - a.phase.start.position);
    file := SessionWrites(env, s, j, a, f, cuts, S.Sum(cuts), RestSteps(env, a, j));
    RestOverOld(s.server.disk[a.path], env.content[a.path], a.phase.start.offset, a.phase.start.position + S.Sum(cuts), file);
  }

  /** The latest attempt is a completed job of the path, and the server has its content. */
  ghost predicate Finished(env: Env, s: System, path: string) {
    && path in env.content && |s.attempts| > 0
    && var a := s.attempts[|s.attempts| - 1];
       a.path == path && a.phase == Complete(true) && FileOnDisk(s.server, path) == env.content[path]
  }

  /** Asking about a file that is all there completes the job. */
  lemma AskFinished(env: Env, s: System, client: string, path: string, meta: QueryMeta)
    requires DbOk(env, s.server) && path in env.content && Known(env, s.server, path)
    requires path in s.server.disk && s.server.disk[path] == env.content[path]
    ensures var steps := [DoQuery(client, path, meta)] + [DoBegin(|s.attempts|, ALL_WELL)];
            Legal(env, s, steps, path) && Finished(env, Run(env, s, steps), path)
  {
    var step := DoQuery(client, path, meta);
    var t := Apply(env, s, step);
    HitAnswered(env, s, client, path, meta);
    OneStep(env, s, step);
    assert Decide(env, t.attempts[|s.attempts|], ALL_WELL) == Complete(true);
    OneStep(env, t, DoBegin(|s.attempts|, ALL_WELL));
    LegalJoin(env, s, [step], [DoBegin(|s.attempts|, ALL_WELL)], path);
  }

  /** The writer's steps and the chunks of a transfer just begun. */
  function TransferSteps(env: Env, s: System): seq<Step>
    requires s.attempts != []
    requires var a := s.attempts[|s.attempts| - 1];
             a.phase.Streaming? && a.path in env.content && a.phase.start.position < |env.content[a.path]|
  {
    [DoOpen(|s.attempts| - 1)] + [DoWait(|s.attempts| - 1)] + RestSteps(env, s.attempts[|s.attempts| - 1], |s.attempts| - 1)
  }

  /** A transfer just begun, run to its end, in any state. */
  lemma Transfers(env: Env, s: System, client: string, path: string, phase: AttemptPhase)
    requires Launched(env, s, client, path, phase) && phase.Streaming? && |env.content[path]| < INT63_LIMIT
    ensures Legal(env, s, TransferSteps(env, s), path)
    ensures var (t, c, old_) := (Run(env, s, TransferSteps(env, s)), env.content[path], FileOnDisk(s.server, path));
            && t.server.db == s.server.db && |t.attempts| == |s.attempts| && path in t.server.disk
            && (t.server.disk[path] == c <==> old_[..phase.start.offset] == c[..phase.start.offset] && |old_| <= |c|)
            && (|old_| <= |c| ==> |t.server.disk[path]| == |c|)
  {
    var j := |s.attempts| - 1;
    var wait := [DoOpen(j)] + [DoWait(j)];
    Waits(env, s, client, path, phase);
    var t := Run(env, s, wait);
    var file := RestWritten(env, t, j, s.attempts[j], t.server.sessions[j]);
    LegalJoin(env, s, wait, RestSteps(env, s.attempts[j], j), path);
  }

  lemma CalmTransfer(env: Env, s: System, n: nat)
    requires s.attempts != []
    requires var a := s.attempts[|s.attempts| - 1];
             a.phase.Streaming? && a.path in env.content && a.phase.start.position < |env.content[a.path]|
    ensures Calm(TransferSteps(env, s), n)
  {
    var (j, a) := (|s.attempts| - 1, s.attempts[|s.attempts| - 1]);
    var cuts := Blocks(|env.content[a.path]| - a.phase.start.position);
    CalmChunk(j, cuts[0], n);
    CalmStream(j, cuts[1..], n);
    CalmJoin(FirstSteps(j, cuts[0]), StreamSteps(j, cuts[1..]), n);
    CalmJoin([DoOpen(j)] + [DoWait(j)], RestSteps(env, a, j), n);
  }

  /** A transfer just begun, to its end, and the query that completes the job. */
  function StreamAndAsk(env: Env, s: System, client: string, path: string, meta: QueryMeta): seq<Step>
    requires s.attempts != []
    requires var a := s.attempts[|s.attempts| - 1];
             a.phase.Streaming? && a.path in env.content && a.phase.start.position < |env.content[a.path]|
  {
    TransferSteps(env, s) + ([DoQuery(client, path, meta)] + [DoBegin(|s.attempts|, ALL_WELL)])
  }

  lemma FromStreaming(env: Env, s: System, client: string, path: string, phase: AttemptPhase, meta: QueryMeta)
    requires DbOk(env, s.server) && Base(env, s) && Launched(env, s, client, path, phase) && phase.Streaming?
    requires Fixable(env, FileOnDisk(s.server, path), env.content[path]) && |env.content[path]| < INT63_LIMIT
    ensures Legal(env, s, StreamAndAsk(env, s, client, path, meta), path)
    ensures Finished(env, Run(env, s, StreamAndAsk(env, s, client, path, meta)), path)
  {
    Transfers(env, s, client, path, phase);
    var t := Run(env, s, TransferSteps(env, s));
    var (c, old_) := (env.content[path], FileOnDisk(s.server, path));
    assert HistoryOk(env, s.attempts[|s.attempts| - 1]);
    assert |old_| <= |c| && old_[..phase.start.offset] == c[..phase.start.offset];
    AskFinished(env, t, client, path, meta);
    LegalJoin(env, s, TransferSteps(env, s), [DoQuery(client, path, meta)] + [DoBegin(|t.attempts|, ALL_WELL)], path);
  }

  lemma CalmFinish(env: Env, s: System, client: string, path: string, meta: QueryMeta, n: nat)
    requires s.attempts != []
    requires var a := s.attempts[|s.attempts| - 1];
             a.phase.Streaming? && a.path in env.content && a.phase.start.position < |env.content[a.path]|
    requires SF.Plain(meta.mediaPrefix) && meta.clientTime != SF.EPOCH
    ensures Calm(StreamAndAsk(env, s, client, path, meta), n)
  {
    CalmTransfer(env, s, n);
    CalmJoin(TransferSteps(env, s), [DoQuery(client, path, meta)] + [DoBegin(|s.attempts|, ALL_WELL)], n);
  }

  lemma FromAnswer(env: Env, s: System, client: string, path: string, meta: QueryMeta) returns (more: seq<Step>)
    requires HashOk(env) && DbOk(env, s.server) && Base(env, s) && Answered(env, s, client, path, Replied)
    requires Fixable(env, FileOnDisk(s.server, path), env.content[path]) && |env.content[path]| < INT63_LIMIT
    requires SF.Plain(meta.mediaPrefix) && meta.clientTime != SF.EPOCH
    ensures Legal(env, s, more, path) && Finished(env, Run(env, s, more), path)
    ensures Calm(more, |s.attempts| - 1)
  {
    var begin := [DoBegin(|s.attempts| - 1, ALL_WELL)];
    Decided(env, s, client, path);
    RunKeepsBase(env, s, begin);
    var rest := FromLaunch(env, Run(env, s, begin), client, path, meta);
    LegalJoin(env, s, begin, rest, path);
    CalmJoin(begin, rest, |s.attempts| - 1);
    more := begin + rest;
  }

  lemma FromLaunch(env: Env, s: System, client: string, path: string, meta: QueryMeta) returns (more: seq<Step>)
    requires HashOk(env) && DbOk(env, s.server) && Base(env, s) && s.attempts != [] && path in env.content
    requires Fixable(env, FileOnDisk(s.server, path), env.content[path])
    requires Launched(env, s, client, path, s.attempts[|s.attempts| - 1].phase) && |env.content[path]| < INT63_LIMIT
    requires SF.Plain(meta.mediaPrefix) && meta.clientTime != SF.EPOCH
    ensures Legal(env, s, more, path) && Finished(env, Run(env, s, more), path)
    ensures Calm(more, |s.attempts| - 1)
  {
    var phase := s.attempts[|s.attempts| - 1].phase;
    if phase.Streaming? {
      FromStreaming(env, s, client, path, phase, meta);
      CalmFinish(env, s, client, path, meta, |s.attempts| - 1);
      more := StreamAndAsk(env, s, client, path, meta);
    } else {
      CompleteIsThere(env, s, client, path);
      more := [];
    }
  }

  lemma CompleteIsThere(env: Env, s: System, client: string, path: string)
    requires HashOk(env) && Base(env, s) && Answered(env, s, client, path, Complete(true))
    requires Fixable(env, FileOnDisk(s.server, path), env.content[path])
    ensures Finished(env, s, path)
  {
    var a := s.attempts[|s.attempts| - 1];
    assert HistoryOk(env, a);
    CompleteSees(env, a);
  }

  lemma AskCalm(env: Env, s: System, client: string, path: string, meta: QueryMeta)
    requires path in env.content && SF.Plain(meta.mediaPrefix) && meta.clientTime != SF.EPOCH
    requires meta.createdAt != SF.EPOCH
    ensures Calm(AskSteps(env, s, client, path, meta), |s.attempts|)
  {
  }

  /** A job can be finished beside all pending queries, which stay pending. */
  lemma JobFinishes(env: Env, s: System, client: string, p: string, meta: QueryMeta) returns (more: seq<Step>)
    requires ValidEnv(env) && Base(env, s) && Records(env, s) && GoodMeta(env, meta) && p in env.content
    requires SF.Plain(meta.mediaPrefix) && meta.clientTime != SF.EPOCH && meta.createdAt != SF.EPOCH
    requires Known(env, s.server, p) ==> Fixable(env, FileOnDisk(s.server, p), env.content[p])
    ensures Legal(env, s, more, p) && Finished(env, Run(env, s, more), p) && Calm(more, |s.attempts|)
  {
    var ask := AskSteps(env, s, client, p, meta);
    AskAnswered(env, s, client, p, meta);
    AskCalm(env, s, client, p, meta);
    CalmIsTimely(ask, |s.attempts|);
    RunKeepsRecords(env, s, ask);
    var rest := FromAnswer(env, Run(env, s, ask), client, p, meta);
    LegalJoin(env, s, ask, rest, p);
    CalmJoin(ask, rest, |s.attempts|);
    more := ask + rest;
  }

  /** Some timely run, itself aligned, finishes a job of p. */
  ghost predicate CanFinish(env: Env, s: System, p: string) {
    exists more :: Legal(env, s, more, p) && TimelyRun(more) && Finished(env, Run(env, s, more), p)
  }

  lemma FinishesNow(env: Env, s: System, client: string, p: string, meta: QueryMeta)
    requires ValidEnv(env) && Base(env, s) && Records(env, s) && GoodMeta(env, meta) && p in env.content
    requires SF.Plain(meta.mediaPrefix) && meta.clientTime != SF.EPOCH && meta.createdAt != SF.EPOCH
    requires Known(env, s.server, p) ==> Fixable(env, FileOnDisk(s.server, p), env.content[p])
    ensures CanFinish(env, s, p)
  {
    var more := JobFinishes(env, s, client, p, meta);
    CalmIsTimely(more, |s.attempts|);
  }

  /** A pending query removes the file first. */
  lemma FinishesAfterRemoval(env: Env, s: System, client: string, p: string, meta: QueryMeta)
    requires ValidEnv(env) && Base(env, s) && Records(env, s) && GoodMeta(env, meta) && p in env.content
    requires SF.Plain(meta.mediaPrefix) && meta.clientTime != SF.EPOCH && meta.createdAt != SF.EPOCH
    requires PendingOn(s, p) && p in s.server.disk
    ensures CanFinish(env, s, p)
  {
    var i :| 0 <= i < |s.attempts| && s.attempts[i].phase.Asking? && s.attempts[i].path == p;
    var step := Removal(s, i);
    RemovalKeeps(env, s, i);
    FinishesNow(env, Apply(env, s, step), client, p, meta);
    FinishesLater(env, s, step, p);
  }

  lemma RemovalKeeps(env: Env, s: System, i: nat)
    requires RecordsFit(env) && Base(env, s) && Records(env, s)
    requires i < |s.attempts| && s.attempts[i].phase.Asking? && s.attempts[i].path in env.content
    requires s.attempts[i].path in s.server.disk
    ensures var step := Removal(s, i);
            && Enabled(env, s, step) && Timely(step) && Benign(env, s, step, s.attempts[i].path)
            && Base(env, Apply(env, s, step)) && Records(env, Apply(env, s, step))
            && s.attempts[i].path !in Apply(env, s, step).server.disk
  {
    PendingRemoves(env, s, i);
    StepKeepsBase(env, s, Removal(s, i));
    StepKeepsRecords(env, s, Removal(s, i));
  }

  lemma FinishesLater(env: Env, s: System, step: Step, p: string)
    requires Enabled(env, s, step) && Timely(step) && Benign(env, s, step, p) && CanFinish(env, Apply(env, s, step), p)
    ensures CanFinish(env, s, p)
  {
    var t := Apply(env, s, step);
    var more :| Legal(env, t, more, p) && TimelyRun(more) && Finished(env, Run(env, t, more), p);
    OneStep(env, s, step);
    LegalJoin(env, s, [step], more, p);
    assert [step][1..] == [];
    TimelyJoin([step], more);
    assert Legal(env, s, [step] + more, p);
  }

  /**
   * No run can spoil a file for good: after any run whose writes land, whatever sessions are stuck, closed, failed or still
   * writing, whatever queries are pending, any client can ask for the path and there is a run after which its job is
   * complete and the server has the content.
   */
  lemma EveryJobCanFinish(env: Env, start: System, before: seq<Step>, client: string, p: string, meta: QueryMeta)
    requires ValidEnv(env) && Begun(env, start) && p in env.content && DiskOkAt(env, start.server, p)
    requires Landing(env, start, before, p) && TimelyRun(before) && GoodMeta(env, meta)
    requires SF.Plain(meta.mediaPrefix) && meta.clientTime != SF.EPOCH && meta.createdAt != SF.EPOCH
    ensures CanFinish(env, Run(env, start, before), p)
  {
    ReachClean(env, start, before, p);
    RunKeepsRecords(env, start, before);
    FinishesNow(env, Run(env, start, before), client, p, meta);
  }

  /** A file that is known, with no query pending that would remove it, never becomes shorter, in any timely run. */
  lemma {:induction false} NeverShorter(env: Env, s: System, steps: seq<Step>, p: string)
    requires RecordsFit(env) && Base(env, s) && Records(env, s) && p in env.content && Known(env, s.server, p)
    requires !PendingOn(s, p) && Possible(env, s, steps) && TimelyRun(steps)
    ensures |FileOnDisk(s.server, p)| <= |FileOnDisk(Run(env, s, steps).server, p)|
    decreases |steps|
  {
    if steps != [] {
      StepNotShorter(env, s, steps[0], p);
      NeverShorter(env, Apply(env, s, steps[0]), steps[1..], p);
    }
  }

  lemma StepNotShorter(env: Env, s: System, step: Step, p: string)
    requires RecordsFit(env) && Base(env, s) && Records(env, s) && p in env.content && Known(env, s.server, p)
    requires !PendingOn(s, p) && Enabled(env, s, step) && Timely(step)
    ensures var t := Apply(env, s, step);
            && Base(env, t) && Records(env, t) && Known(env, t.server, p) && !PendingOn(t, p)
            && |FileOnDisk(s.server, p)| <= |FileOnDisk(t.server, p)|
  {
    StepKeepsBase(env, s, step);
    StepKeepsRecords(env, s, step);
    NoNewPending(env, s, step, p);
    if step.DoFlush? {
      FlushLengthens(s.server, step.id, step.k, p);
    } else {
      OnlyFlushWrites(env, s, step, p);
    }
  }

  /**
   * Today's server, exactly, after any timely run at all, aligned or not, on any initial disk: a job of p can still be
   * finished if and only if the database does not know the content, or a first query of the path is pending, or the file
   * is not longer than the content. So whatever wrong bytes a stream has written, only wrong length is for good.
   */
  lemma TodayFinishesExact(env: Env, start: System, before: seq<Step>, client: string, p: string, meta: QueryMeta)
    requires ValidEnv(env) && NoCollision(env) && !env.reportsSize && Begun(env, start) && p in env.content
    requires Possible(env, start, before) && TimelyRun(before) && GoodMeta(env, meta)
    requires SF.Plain(meta.mediaPrefix) && meta.clientTime != SF.EPOCH && meta.createdAt != SF.EPOCH
    ensures var s := Run(env, start, before);
            CanFinish(env, s, p) <==>
            !Known(env, s.server, p) || PendingOn(s, p) || |FileOnDisk(s.server, p)| <= |env.content[p]|
  {
    var s := Run(env, start, before);
    RunKeepsRecords(env, start, before);
    if !Known(env, s.server, p) || |FileOnDisk(s.server, p)| <= |env.content[p]| {
      FinishesNow(env, s, client, p, meta);
    } else if PendingOn(s, p) {
      FinishesAfterRemoval(env, s, client, p, meta);
    } else {
      forall more | Legal(env, s, more, p) && TimelyRun(more) ensures !Finished(env, Run(env, s, more), p) {
        NeverShorter(env, s, more, p);
      }
    }
  }
}
