/** What becomes of a stream that has ended: what is stored, what is still on its way, and when that will store the rest. */
module ProtocolStreams {
  import opened Wrappers
  import opened FileBytes
  import opened Protocol
  import opened ProtocolShape
  import opened ProtocolSafety
  import opened ProtocolRuns
  import opened ProtocolOutcomes
  import opened ProtocolHome

  // ----- a stream that has drained -----

  /**
   * A home stream that has ended with everything sent, nothing of it on the way or lost, and whose writer has nothing
   * left to write, has stored the whole content, unless its pipe was closed or its file removed under it.
   */
  lemma HomeDrained(env: Env, s: System, i: nat, p: string)
    requires Strict(env, s, p) && Streams(s) && i in s.server.sessions && s.attempts[i].path == p
    requires s.attempts[i].phase.Ended? && !s.attempts[i].phase.copyFailed
    requires s.attempts[i].wire == [] && !s.attempts[i].cut
    requires var f := s.server.sessions[i];
             f.phase == Writing && f.pipeOpen && f.linked && f.buffer == [] && f.pipe == [] && f.copied > 0
    ensures FileOnDisk(s.server, p) == env.content[p]
  {
    var (a, f) := (s.attempts[i], s.server.sessions[i]);
    AttemptFacts(env, s, i, p);
    assert ShapeOk(env, s.server.disk, f);
    AccountedBytes(env, s, i, p);
    DrainedPosition(env, a, f, FileOnDisk(s.server, p));
  }

  lemma AttemptFacts(env: Env, s: System, i: nat, p: string)
    requires Strict(env, s, p) && i < |s.attempts| && s.attempts[i].path == p
    ensures var a := s.attempts[i]; HistoryOk(env, a) && Honest(env.content[p], a) && SawPrefix(env.content[p], a)
  {
  }

  lemma DrainedPosition(env: Env, a: Attempt, f: Session, file: Bytes)
    requires HistoryOk(env, a) && StreamOk(a, f) && Honest(env.content[a.path], a) && SawPrefix(env.content[a.path], a)
    requires a.phase.Ended? && !a.phase.copyFailed && a.wire == [] && !a.cut
    requires file <= env.content[a.path] && f.position <= |file|
    requires f.phase == Writing && f.once && f.pipeOpen && f.buffer == [] && f.pipe == []
    ensures f.position == |env.content[a.path]|
  {
  }

  // ----- what a session will still write -----

  /** The session will write what reaches it, under the name of its path. */
  predicate Listens(f: Session) {
    && (f.linked || f.phase == Created)
    && if f.once then f.phase in {Signalled, Writing} else f.phase in {Created, Opened, Waiting}
  }

  /** Where the next byte of the stream will be written. */
  function Next(f: Session, a: Attempt): nat
    requires a.phase.Ended?
  {
    if f.phase == Writing then f.position else if f.once then f.currentSize else a.phase.start.offset
  }

  /** What is on the way reaches session i: its pipe is open, and it is its client's current session. */
  predicate Reaching(server: Server, i: nat, a: Attempt)
    requires i in server.sessions
  {
    server.sessions[i].pipeOpen && a.client in server.active && server.active[a.client] == i
  }

  /** All bytes the session holds or will be given. */
  function Coming(f: Session, a: Attempt, reaching: bool): Bytes {
    f.buffer + f.pipe + if reaching then Payload(a.wire) else []
  }

  /** Between the end of the file and the next write lie only zeros of the content. */
  predicate NoGap(c: Bytes, file: Bytes, at: nat) {
    at <= |c| && forall k :: |file| <= k < at ==> c[k] == 0
  }

  /**
   * The stream will be stored: its session listens, no byte of it was dropped, so that what is to come ends where the
   * content ends, and the first write leaves no wrong gap.
   */
  predicate WillStore(c: Bytes, server: Server, i: nat, a: Attempt)
    requires i in server.sessions && a.phase.Ended?
  {
    var (f, file) := (server.sessions[i], FileOnDisk(server, a.path));
    && Listens(f) && Next(f, a) + |Coming(f, a, Reaching(server, i, a))| == |c|
    && NoGap(c, file, Next(f, a))
  }

  /** A step of session i alone, or of what is on the way to it. */
  predicate OwnStep(step: Step, i: nat) {
    match step
    case DoDeliver(j) => j == i
    case DoOpen(j) => j == i
    case DoWait(j) => j == i
    case DoSeek(j) => j == i
    case DoTake(j, k) => j == i
    case DoFlush(j, k) => j == i
    case DoFinish(j) => j == i
    case DoFail(j) => j == i
    case _ => false
  }

  /** Such steps only, which bring no chunk to another session. */
  predicate OwnSteps(env: Env, s: System, steps: seq<Step>, i: nat)
    requires Possible(env, s, steps)
    decreases |steps|
  {
    steps == [] || (OwnStep(steps[0], i) && Home(env, s, steps[0]) && OwnSteps(env, Apply(env, s, steps[0]), steps[1..], i))
  }

  predicate OwnRun(env: Env, s: System, steps: seq<Step>, i: nat) {
    Possible(env, s, steps) && OwnSteps(env, s, steps, i)
  }

  /** Some such run stores the content. */
  ghost predicate CanStore(env: Env, s: System, i: nat, p: string)
    requires p in env.content
  {
    exists steps :: OwnRun(env, s, steps, i) && FileOnDisk(Run(env, s, steps).server, p) == env.content[p]
  }

  /** What own steps keep of an ended stream: its session, its own past, the shapes. */
  ghost predicate Ending(env: Env, s: System, i: nat, p: string) {
    && Base(env, s) && Streams(s) && i in s.server.sessions && p in env.content
    && s.attempts[i].path == p && s.attempts[i].phase.Ended?
  }

  /** The two sides of a step: session, attempt, file, and whether what is on the way counts. */
  datatype Side = Side(f: Session, a: Attempt, file: Bytes, reaching: bool)

  function SideOf(s: System, i: nat, p: string): Side
    requires i in s.server.sessions && i < |s.attempts|
  {
    Side(s.server.sessions[i], s.attempts[i], FileOnDisk(s.server, p), Reaching(s.server, i, s.attempts[i]))
  }

  /** What an own step does to a side. */
  ghost predicate Moves(step: Step, x: Side, y: Side) {
    match step
    case DoDeliver(_) =>
      && x.a.wire != [] && y.a == Received(x.a) && y.f == Feed(x.f, x.a.wire[0]) && y.file == x.file
      && y.reaching == x.reaching && x.reaching == x.f.pipeOpen && (x.f.pipeOpen ==> x.f.pipe == [])
    case DoOpen(_) => y == x.(f := x.f.(phase := Opened, linked := true)) && x.f.phase == Created
    case DoWait(_) => y == x.(f := x.f.(phase := Waiting)) && x.f.phase == Opened
    case DoSeek(_) => y == x.(f := Sought(x.f)) && x.f.phase == Signalled
    case DoTake(_, k) => k <= |x.f.pipe| && x.f.buffer == [] && x.f.phase == Writing && y == x.(f := Taken(x.f, k))
    case DoFlush(_, k) =>
      && k <= |x.f.buffer| && x.f.phase == Writing && y.f == Flushed(x.f, k) && y.a == x.a && y.reaching == x.reaching
      && y.file == (if x.f.linked then WriteAt(x.file, x.f.position, x.f.buffer[..k]) else x.file)
    case DoFinish(_) => y.f.phase in {Done, Failed} && y.a == x.a && y.file == x.file
    case DoFail(_) => y.f.phase == Failed && y.a == x.a && y.file == x.file
    case _ => false
  }

  /** The state after an own step still has the session and the ended attempt, and the step moves its side. */
  ghost predicate Carried(step: Step, s: System, t: System, i: nat, p: string)
    requires i in s.server.sessions && i < |s.attempts|
  {
    && i in t.server.sessions && i < |t.attempts| && t.attempts[i].path == s.attempts[i].path
    && t.attempts[i].phase == s.attempts[i].phase && Moves(step, SideOf(s, i, p), SideOf(t, i, p))
  }

  lemma DeliverCarries(env: Env, s: System, i: nat, p: string)
    requires i in s.server.sessions && i < |s.attempts| && Enabled(env, s, DoDeliver(i)) && IdsOk(s)
    requires s.attempts[i].client in s.server.active && s.server.active[s.attempts[i].client] == i
    ensures Carried(DoDeliver(i), s, Apply(env, s, DoDeliver(i)), i, p)
  {
  }

  /** Steps that put a session in place of the old one. */
  lemma PutSide(s: System, i: nat, p: string, g: Session)
    requires i in s.server.sessions && i < |s.attempts| && g.pipeOpen == s.server.sessions[i].pipeOpen
    ensures SideOf(s.(server := PutSession(s.server, i, g)), i, p) == SideOf(s, i, p).(f := g)
  {
  }

  lemma OpenCarries(env: Env, s: System, i: nat, p: string)
    requires i in s.server.sessions && i < |s.attempts| && Enabled(env, s, DoOpen(i))
    ensures Carried(DoOpen(i), s, Apply(env, s, DoOpen(i)), i, p)
  {
  }

  lemma FlushCarries(env: Env, s: System, i: nat, k: nat, p: string)
    requires i in s.server.sessions && i < |s.attempts| && Enabled(env, s, DoFlush(i, k))
    requires s.server.sessions[i].path == p && (s.server.sessions[i].linked ==> p in s.server.disk)
    ensures Carried(DoFlush(i, k), s, Apply(env, s, DoFlush(i, k)), i, p)
  {
    FlushParts(s.server, i, k);
  }

  lemma FinishCarries(env: Env, s: System, i: nat, p: string)
    requires i in s.server.sessions && i < |s.attempts| && Enabled(env, s, DoFinish(i))
    ensures Carried(DoFinish(i), s, Apply(env, s, DoFinish(i)), i, p)
  {
    FinishSessions(env, s.server, i);
  }

  lemma WriterCarries(env: Env, s: System, step: Step, i: nat, p: string)
    requires i in s.server.sessions && i < |s.attempts| && Enabled(env, s, step) && OwnStep(step, i)
    requires step.DoWait? || step.DoSeek? || step.DoTake? || step.DoFail?
    ensures Carried(step, s, Apply(env, s, step), i, p)
  {
    var f := s.server.sessions[i];
    match step
    case DoWait(_) => PutSide(s, i, p, f.(phase := Waiting));
    case DoSeek(_) => PutSide(s, i, p, Sought(f));
    case DoTake(_, k) => PutSide(s, i, p, Taken(f, k));
    case DoFail(_) => PutSide(s, i, p, f.(phase := Failed));
  }

  lemma OwnStepCarries(env: Env, s: System, step: Step, i: nat, p: string)
    requires i in s.server.sessions && i < |s.attempts| && Enabled(env, s, step) && OwnStep(step, i)
    requires step.DoDeliver? ==>
               IdsOk(s) && s.attempts[i].client in s.server.active && s.server.active[s.attempts[i].client] == i
    requires step.DoFlush? ==> s.server.sessions[i].path == p && (s.server.sessions[i].linked ==> p in s.server.disk)
    ensures Carried(step, s, Apply(env, s, step), i, p)
  {
    match step
    case DoDeliver(_) => DeliverCarries(env, s, i, p);
    case DoOpen(_) => OpenCarries(env, s, i, p);
    case DoFlush(_, k) => FlushCarries(env, s, i, k, p);
    case DoFinish(_) => FinishCarries(env, s, i, p);
    case _ => WriterCarries(env, s, step, i, p);
  }

  lemma OwnSession(env: Env, s: System, step: Step, i: nat, p: string)
    requires Ending(env, s, i, p) && Enabled(env, s, step) && OwnStep(step, i) && Home(env, s, step)
    ensures i in s.server.sessions && i < |s.attempts|
    ensures step.DoDeliver? ==>
              IdsOk(s) && s.attempts[i].client in s.server.active && s.server.active[s.attempts[i].client] == i
    ensures step.DoFlush? ==> s.server.sessions[i].path == p && (s.server.sessions[i].linked ==> p in s.server.disk)
  {
    if step.DoDeliver? {
      OwnDelivery(env, s, i, p);
    } else if step.DoFlush? {
      OwnFlush(env, s, i, p);
    }
  }

  lemma OwnDelivery(env: Env, s: System, i: nat, p: string)
    requires Ending(env, s, i, p) && Enabled(env, s, DoDeliver(i)) && Home(env, s, DoDeliver(i))
    ensures IdsOk(s) && s.attempts[i].client in s.server.active && s.server.active[s.attempts[i].client] == i
  {
  }

  lemma OwnFlush(env: Env, s: System, i: nat, p: string)
    requires Ending(env, s, i, p) && At(s, i, Writing)
    ensures s.server.sessions[i].path == p && (s.server.sessions[i].linked ==> p in s.server.disk)
  {
    assert ShapeOk(env, s.server.disk, s.server.sessions[i]) && StreamOk(s.attempts[i], s.server.sessions[i]);
  }

  lemma CarriedOn(env: Env, step: Step, s: System, t: System, i: nat, p: string)
    requires Ending(env, s, i, p) && Base(env, t) && Streams(t) && Carried(step, s, t, i, p)
    ensures Ending(env, t, i, p) && Moves(step, SideOf(s, i, p), SideOf(t, i, p))
  {
  }

  /** Every own step carries the ended stream on. */
  lemma EndingStep(env: Env, s: System, step: Step, i: nat, p: string)
    requires Ending(env, s, i, p) && Enabled(env, s, step) && OwnStep(step, i) && Home(env, s, step)
    ensures Ending(env, Apply(env, s, step), i, p) && Moves(step, SideOf(s, i, p), SideOf(Apply(env, s, step), i, p))
  {
    OwnSession(env, s, step, i, p);
    OwnStepCarries(env, s, step, i, p);
    StepKeepsBase(env, s, step);
    StepKeepsStreams(env, s, step);
    CarriedOn(env, step, s, Apply(env, s, step), i, p);
  }

  // ----- streams that will not be stored -----

  /** What is known of a side, apart from the bytes. */
  ghost predicate SideOk(env: Env, disk: map<string, Bytes>, x: Side) {
    && ShapeOk(env, disk, x.f) && StreamOk(x.a, x.f) && HistoryOk(env, x.a) && x.a.phase.Ended?
    && (x.reaching ==> x.f.pipeOpen)
  }

  lemma EndingSide(env: Env, s: System, i: nat, p: string)
    requires Ending(env, s, i, p)
    ensures SideOk(env, s.server.disk, SideOf(s, i, p))
  {
    assert ShapeOk(env, s.server.disk, s.server.sessions[i]) && StreamOk(s.attempts[i], s.server.sessions[i]);
  }

  /** All bytes of a side that are still to be written. */
  function Due(x: Side): Bytes {
    Coming(x.f, x.a, x.reaching)
  }

  /** The file is too short, and what is to come ends before the content does. */
  predicate Short(c: Bytes, x: Side)
    requires x.a.phase.Ended?
  {
    |x.file| < |c| && (Listens(x.f) ==> Next(x.f, x.a) + |Due(x)| < |c|)
  }

  /** A byte of the content that is not zero will be passed over, or has been. */
  predicate Hole(c: Bytes, x: Side, k: nat)
    requires x.a.phase.Ended?
  {
    k < |c| && c[k] != 0 && (k < |x.file| ==> x.file[k] == 0) && (Listens(x.f) ==> k < Next(x.f, x.a))
  }

  /** Where the stream goes on does not change with a delivery: the chunk joins the pipe. */
  lemma DeliveryMoves(env: Env, disk: map<string, Bytes>, x: Side, y: Side, i: nat)
    requires SideOk(env, disk, x) && Moves(DoDeliver(i), x, y)
    ensures y.a.phase == x.a.phase
    ensures Listens(y.f) ==> Listens(x.f) && Next(y.f, y.a) == Next(x.f, x.a) && Due(y) == Due(x)
    ensures Listens(x.f) && x.f.phase in {Waiting, Signalled, Writing} ==> Listens(y.f)
  {
    WireHead(env.content[x.a.path], x.a);
    var h := x.a.wire[0];
    assert Payload(x.a.wire) == h.data + Payload(x.a.wire[1..]);
    assert x.f.buffer + x.f.pipe + (h.data + Payload(x.a.wire[1..])) == x.f.buffer + (x.f.pipe + h.data) + Payload(x.a.wire[1..]);
  }

  /** Neither does it with the steps of the writer before it writes. */
  lemma WriterMoves(env: Env, disk: map<string, Bytes>, step: Step, x: Side, y: Side)
    requires SideOk(env, disk, x) && Moves(step, x, y) && (step.DoOpen? || step.DoWait? || step.DoSeek? || step.DoTake?)
    ensures y.a == x.a && y.file == x.file
    ensures Listens(y.f) <==> Listens(x.f)
    ensures Listens(x.f) ==> Next(y.f, y.a) == Next(x.f, x.a) && Due(y) == Due(x)
  {
    if step.DoTake? {
      assert x.f.pipe[..step.k] + x.f.pipe[step.k..] == x.f.pipe == x.f.buffer + x.f.pipe;
    }
  }

  lemma FlushMoves(env: Env, disk: map<string, Bytes>, x: Side, y: Side, i: nat, k: nat)
    requires SideOk(env, disk, x) && Moves(DoFlush(i, k), x, y)
    ensures y.a == x.a && (Listens(y.f) <==> Listens(x.f)) && (Listens(x.f) <==> x.f.linked)
    ensures Next(y.f, y.a) == Next(x.f, x.a) + k && k <= |Due(x)| && Due(y) == Due(x)[k..]
    ensures y.file == if x.f.linked then WriteAt(x.file, Next(x.f, x.a), Due(x)[..k]) else x.file
  {
    assert Due(x)[..k] == x.f.buffer[..k];
    assert Due(x)[k..] == x.f.buffer[k..] + x.f.pipe + if x.reaching then Payload(x.a.wire) else [];
  }

  lemma ShortMoves(env: Env, disk: map<string, Bytes>, step: Step, c: Bytes, x: Side, y: Side)
    requires SideOk(env, disk, x) && Moves(step, x, y) && Short(c, x)
    ensures y.a.phase.Ended? && Short(c, y)
  {
    match step
    case DoDeliver(i) => DeliveryMoves(env, disk, x, y, i);
    case DoFlush(i, k) => FlushMoves(env, disk, x, y, i, k);
    case DoFinish(_) =>
    case DoFail(_) =>
    case _ => WriterMoves(env, disk, step, x, y);
  }

  lemma HoleMoves(env: Env, disk: map<string, Bytes>, step: Step, c: Bytes, x: Side, y: Side, k: nat)
    requires SideOk(env, disk, x) && Moves(step, x, y) && Hole(c, x, k)
    ensures y.a.phase.Ended? && Hole(c, y, k)
  {
    match step
    case DoDeliver(i) => DeliveryMoves(env, disk, x, y, i);
    case DoFlush(i, n) => FlushMoves(env, disk, x, y, i, n);
    case DoFinish(_) =>
    case DoFail(_) =>
    case _ => WriterMoves(env, disk, step, x, y);
  }

  lemma ShortStep(env: Env, s: System, step: Step, i: nat, p: string)
    requires Ending(env, s, i, p) && Enabled(env, s, step) && OwnStep(step, i) && Home(env, s, step)
    requires Short(env.content[p], SideOf(s, i, p))
    ensures Ending(env, Apply(env, s, step), i, p) && Short(env.content[p], SideOf(Apply(env, s, step), i, p))
  {
    EndingSide(env, s, i, p);
    EndingStep(env, s, step, i, p);
    ShortMoves(env, s.server.disk, step, env.content[p], SideOf(s, i, p), SideOf(Apply(env, s, step), i, p));
  }

  lemma HoleStep(env: Env, s: System, step: Step, i: nat, p: string, k: nat)
    requires Ending(env, s, i, p) && Enabled(env, s, step) && OwnStep(step, i) && Home(env, s, step)
    requires Hole(env.content[p], SideOf(s, i, p), k)
    ensures Ending(env, Apply(env, s, step), i, p) && Hole(env.content[p], SideOf(Apply(env, s, step), i, p), k)
  {
    EndingSide(env, s, i, p);
    EndingStep(env, s, step, i, p);
    HoleMoves(env, s.server.disk, step, env.content[p], SideOf(s, i, p), SideOf(Apply(env, s, step), i, p), k);
  }

  lemma {:induction false} ShortStays(env: Env, s: System, steps: seq<Step>, i: nat, p: string)
    requires Ending(env, s, i, p) && OwnRun(env, s, steps, i) && Short(env.content[p], SideOf(s, i, p))
    ensures FileOnDisk(Run(env, s, steps).server, p) != env.content[p]
    decreases |steps|
  {
    if steps != [] {
      ShortStep(env, s, steps[0], i, p);
      ShortStays(env, Apply(env, s, steps[0]), steps[1..], i, p);
    }
  }

  lemma {:induction false} HoleStays(env: Env, s: System, steps: seq<Step>, i: nat, p: string, k: nat)
    requires Ending(env, s, i, p) && OwnRun(env, s, steps, i) && Hole(env.content[p], SideOf(s, i, p), k)
    ensures FileOnDisk(Run(env, s, steps).server, p) != env.content[p]
    decreases |steps|
  {
    if steps != [] {
      HoleStep(env, s, steps[0], i, p, k);
      HoleStays(env, Apply(env, s, steps[0]), steps[1..], i, p, k);
    }
  }

  // ----- streams that will be stored -----

  /** The file is a prefix, what is to come is the rest of the content in its place, and no wrong gap will be left. */
  predicate Promising(c: Bytes, x: Side)
    requires x.a.phase.Ended?
  {
    && Listens(x.f) && x.file <= c && NoGap(c, x.file, Next(x.f, x.a)) && Due(x) == c[Next(x.f, x.a)..]
    && (Due(x) == [] ==> x.file == c)
  }

  lemma FlushPromises(c: Bytes, file: Bytes, at: nat, due: Bytes, k: nat, next: Bytes, upTo: nat, left: Bytes)
    requires file <= c && NoGap(c, file, at) && due == c[at..] && 0 < k <= |due| && next == WriteAt(file, at, due[..k])
    requires upTo == at + k && left == due[k..]
    ensures next <= c && NoGap(c, next, upTo) && left == c[upTo..] && (left == [] ==> next == c)
  {
    assert due[..k] == c[at..at + k];
    PrefixAfterWrite(file, at, due[..k], c);
  }

  /** The next own step towards the stored content. */
  function NextStep(x: Side, i: nat): Step {
    if x.f.phase == Created then DoOpen(i)
    else if x.f.phase == Opened then DoWait(i)
    else if x.f.phase == Waiting then DoDeliver(i)
    else if x.f.phase == Signalled then DoSeek(i)
    else if x.f.buffer != [] then DoFlush(i, |x.f.buffer|)
    else if x.f.pipe != [] then DoTake(i, |x.f.pipe|)
    else DoDeliver(i)
  }

  lemma PromiseMoves(env: Env, disk: map<string, Bytes>, c: Bytes, x: Side, y: Side, i: nat)
    requires SideOk(env, disk, x) && Promising(c, x) && Moves(NextStep(x, i), x, y)
    ensures y.a.phase.Ended? && Promising(c, y)
  {
    var step := NextStep(x, i);
    if step.DoDeliver? {
      DeliveryMoves(env, disk, x, y, i);
    } else if step.DoFlush? {
      PromiseFlushed(env, disk, c, x, y, i, step.k);
    } else {
      WriterMoves(env, disk, step, x, y);
    }
  }

  lemma PromiseFlushed(env: Env, disk: map<string, Bytes>, c: Bytes, x: Side, y: Side, i: nat, k: nat)
    requires SideOk(env, disk, x) && Promising(c, x) && Moves(DoFlush(i, k), x, y) && 0 < k
    ensures y.a.phase.Ended? && Promising(c, y)
  {
    FlushMoves(env, disk, x, y, i, k);
    FlushPromises(c, x.file, Next(x.f, x.a), Due(x), k, y.file, Next(y.f, y.a), Due(y));
  }

  /** What is still to be done for a side. */
  function Effort(x: Side): nat {
    (match x.f.phase case Created => 4 case Opened => 3 case Waiting => 2 case Signalled => 1 case _ => 0)
    + 3 * |Payload(x.a.wire)| + 2 * |x.f.pipe| + |x.f.buffer|
  }

  lemma DeliveryEffort(env: Env, x: Side, y: Side, i: nat)
    requires HistoryOk(env, x.a) && Moves(DoDeliver(i), x, y)
    ensures Effort(y) < Effort(x)
  {
    WireHead(env.content[x.a.path], x.a);
    assert Payload(x.a.wire) == x.a.wire[0].data + Payload(x.a.wire[1..]);
  }

  lemma EffortShrinks(env: Env, disk: map<string, Bytes>, c: Bytes, x: Side, y: Side, i: nat)
    requires SideOk(env, disk, x) && Promising(c, x) && Moves(NextStep(x, i), x, y)
    ensures Effort(y) < Effort(x)
  {
    if NextStep(x, i).DoDeliver? {
      DeliveryEffort(env, x, y, i);
    }
  }

  lemma DueOnWire(env: Env, disk: map<string, Bytes>, c: Bytes, x: Side, i: nat)
    requires SideOk(env, disk, x) && Promising(c, x) && x.file != c && NextStep(x, i).DoDeliver?
    ensures x.reaching && x.a.wire != [] && x.f.pipe == []
  {
    assert Due(x) != [];
  }

  lemma NextStepEnabled(env: Env, s: System, i: nat, p: string, step: Step)
    requires Ending(env, s, i, p) && |env.content[p]| < INT63_LIMIT
    requires Promising(env.content[p], SideOf(s, i, p)) && FileOnDisk(s.server, p) != env.content[p]
    requires step == NextStep(SideOf(s, i, p), i)
    ensures Enabled(env, s, step) && OwnStep(step, i) && Home(env, s, step)
  {
    if step.DoDeliver? {
      DueReaches(env, s, i, p);
      DeliveryEnabled(env, s, i, p);
    } else {
      assert ShapeOk(env, s.server.disk, s.server.sessions[i]);
      WriterEnabled(env, s, i, p, step);
    }
  }

  lemma DueReaches(env: Env, s: System, i: nat, p: string)
    requires Ending(env, s, i, p) && Promising(env.content[p], SideOf(s, i, p)) && FileOnDisk(s.server, p) != env.content[p]
    requires NextStep(SideOf(s, i, p), i).DoDeliver?
    ensures SideOf(s, i, p).reaching && s.attempts[i].wire != [] && s.server.sessions[i].pipe == []
  {
    EndingSide(env, s, i, p);
    DueOnWire(env, s.server.disk, env.content[p], SideOf(s, i, p), i);
  }

  lemma DeliveryEnabled(env: Env, s: System, i: nat, p: string)
    requires i in s.server.sessions && i < |s.attempts|
    requires SideOf(s, i, p).reaching && s.attempts[i].wire != [] && s.server.sessions[i].pipe == []
    ensures Enabled(env, s, DoDeliver(i)) && Home(env, s, DoDeliver(i))
  {
  }

  lemma WriterEnabled(env: Env, s: System, i: nat, p: string, step: Step)
    requires i in s.server.sessions && i < |s.attempts| && p in env.content && |env.content[p]| < INT63_LIMIT
    requires s.attempts[i].phase.Ended? && Promising(env.content[p], SideOf(s, i, p))
    requires ShapeOk(env, s.server.disk, s.server.sessions[i]) && step == NextStep(SideOf(s, i, p), i) && !step.DoDeliver?
    ensures Enabled(env, s, step) && OwnStep(step, i) && Home(env, s, step)
  {
    HeldBound(env.content[p], SideOf(s, i, p));
  }

  lemma HeldBound(c: Bytes, x: Side)
    requires x.a.phase.Ended? && Promising(c, x)
    ensures Next(x.f, x.a) + |x.f.buffer| <= |c|
  {
    assert |x.f.buffer| <= |Due(x)|;
  }

  lemma OwnCons(env: Env, s: System, step: Step, rest: seq<Step>, i: nat)
    requires Enabled(env, s, step) && OwnStep(step, i) && Home(env, s, step) && OwnRun(env, Apply(env, s, step), rest, i)
    ensures OwnRun(env, s, [step] + rest, i) && Run(env, s, [step] + rest) == Run(env, Apply(env, s, step), rest)
  {
    assert ([step] + rest)[1..] == rest;
  }

  lemma PromisingStep(env: Env, s: System, i: nat, p: string)
    requires Ending(env, s, i, p) && |env.content[p]| < INT63_LIMIT
    requires Promising(env.content[p], SideOf(s, i, p)) && FileOnDisk(s.server, p) != env.content[p]
    ensures var (x, step) := (SideOf(s, i, p), NextStep(SideOf(s, i, p), i));
            && Enabled(env, s, step) && OwnStep(step, i) && Home(env, s, step)
            && var t := Apply(env, s, step);
               Ending(env, t, i, p) && Promising(env.content[p], SideOf(t, i, p)) && Effort(SideOf(t, i, p)) < Effort(x)
  {
    var (x, step) := (SideOf(s, i, p), NextStep(SideOf(s, i, p), i));
    NextStepEnabled(env, s, i, p, step);
    EndingSide(env, s, i, p);
    EndingStep(env, s, step, i, p);
    PromiseMoves(env, s.server.disk, env.content[p], x, SideOf(Apply(env, s, step), i, p), i);
    EffortShrinks(env, s.server.disk, env.content[p], x, SideOf(Apply(env, s, step), i, p), i);
  }

  lemma {:induction false} Stores(env: Env, s: System, i: nat, p: string) returns (steps: seq<Step>)
    requires Ending(env, s, i, p) && |env.content[p]| < INT63_LIMIT && Promising(env.content[p], SideOf(s, i, p))
    ensures OwnRun(env, s, steps, i) && FileOnDisk(Run(env, s, steps).server, p) == env.content[p]
    decreases Effort(SideOf(s, i, p))
  {
    if FileOnDisk(s.server, p) == env.content[p] {
      steps := [];
    } else {
      PromisingStep(env, s, i, p);
      var step := NextStep(SideOf(s, i, p), i);
      var rest := Stores(env, Apply(env, s, step), i, p);
      OwnCons(env, s, step, rest, i);
      steps := [step] + rest;
    }
  }

  // ----- the end of a stream, exactly -----

  lemma SamePrefix(file: Bytes, c: Bytes)
    requires file <= c && |file| == |c|
    ensures file == c
  {
    assert c[..|file|] == c;
  }

  lemma ShorterPrefix(file: Bytes, c: Bytes)
    requires file <= c && file != c
    ensures |file| < |c|
  {
    if |file| == |c| {
      SamePrefix(file, c);
    }
  }

  /** A stream sent to its end, on a file that is not whole yet. */
  ghost predicate SentSide(env: Env, disk: map<string, Bytes>, c: Bytes, x: Side) {
    && SideOk(env, disk, x) && c == env.content[x.a.path] && Honest(c, x.a) && SawPrefix(c, x.a)
    && x.a.phase.start.position + x.a.sent == |c| && x.file <= c && x.file != c && SessionFits(c, x.file, x.f)
  }

  /** It does not start at the end of the content, and what is to come does not go beyond it. */
  lemma SentBounds(env: Env, disk: map<string, Bytes>, c: Bytes, x: Side)
    requires SentSide(env, disk, c, x)
    ensures |x.file| < |c| && x.a.phase.start.offset == x.a.phase.start.position != |c|
    ensures Listens(x.f) ==> Next(x.f, x.a) + |Due(x)| <= |c|
  {
    ShorterPrefix(x.file, c);
    SentStart(env, c, x.a);
  }

  lemma SentStart(env: Env, c: Bytes, a: Attempt)
    requires HistoryOk(env, a) && c == env.content[a.path] && a.phase.Ended? && Honest(c, a) && SawPrefix(c, a) && c != []
    ensures a.phase.start.offset == a.phase.start.position != |c|
  {
  }

  /** What the session holds fits, because something is left to write. */
  lemma HeldFits(env: Env, disk: map<string, Bytes>, c: Bytes, x: Side)
    requires SentSide(env, disk, c, x) && Listens(x.f) && Next(x.f, x.a) + |Due(x)| == |c|
    ensures Due(x) != [] && Segment(c, Next(x.f, x.a), x.f.buffer + x.f.pipe)
  {
    SentBounds(env, disk, c, x);
    if x.f.phase == Signalled {
      assert x.f.buffer + x.f.pipe == x.f.pipe;
    } else if !x.f.once {
      assert x.f.buffer + x.f.pipe == [];
    }
  }

  lemma WireFits(env: Env, disk: map<string, Bytes>, c: Bytes, x: Side)
    requires SentSide(env, disk, c, x) && Listens(x.f) && x.reaching && x.a.wire != []
    ensures Segment(c, Next(x.f, x.a) + |x.f.buffer + x.f.pipe|, Payload(x.a.wire))
  {
    SentBounds(env, disk, c, x);
    assert x.f.once ==> AppendPosition(x.f) == x.a.phase.start.offset + x.a.got;
  }

  lemma SidePromises(env: Env, disk: map<string, Bytes>, c: Bytes, x: Side)
    requires SentSide(env, disk, c, x) && Listens(x.f) && Next(x.f, x.a) + |Due(x)| == |c|
    requires NoGap(c, x.file, Next(x.f, x.a))
    ensures Promising(c, x)
  {
    HeldFits(env, disk, c, x);
    DueFits(env, disk, c, x);
    LastSegment(c, Next(x.f, x.a), Due(x));
  }

  lemma LastSegment(c: Bytes, at: nat, d: Bytes)
    requires Segment(c, at, d) && at + |d| == |c|
    ensures d == c[at..]
  {
  }

  lemma DueFits(env: Env, disk: map<string, Bytes>, c: Bytes, x: Side)
    requires SentSide(env, disk, c, x) && Listens(x.f) && Segment(c, Next(x.f, x.a), x.f.buffer + x.f.pipe)
    ensures Segment(c, Next(x.f, x.a), Due(x))
  {
    if x.reaching && x.a.wire != [] {
      WireFits(env, disk, c, x);
      SegmentConcat(c, Next(x.f, x.a), x.f.buffer + x.f.pipe, Payload(x.a.wire));
    } else {
      assert Due(x) == x.f.buffer + x.f.pipe;
    }
  }

  lemma EndSide(env: Env, s: System, i: nat, p: string)
    requires Strict(env, s, p) && Ending(env, s, i, p) && FileOnDisk(s.server, p) != env.content[p]
    requires s.attempts[i].phase.start.position + s.attempts[i].sent == |env.content[p]|
    ensures SentSide(env, s.server.disk, env.content[p], SideOf(s, i, p))
  {
    EndingSide(env, s, i, p);
    AttemptFacts(env, s, i, p);
    SessionFacts(env, s, i, p);
  }

  lemma SessionFacts(env: Env, s: System, i: nat, p: string)
    requires Strict(env, s, p) && Ending(env, s, i, p)
    ensures FileOnDisk(s.server, p) <= env.content[p]
    ensures SessionFits(env.content[p], FileOnDisk(s.server, p), s.server.sessions[i])
  {
    assert StreamOk(s.attempts[i], s.server.sessions[i]);
    assert !NoSession(s.server, p);
  }

  /** A stream that will not be stored is short, or leaves a hole. */
  lemma SideFails(env: Env, disk: map<string, Bytes>, c: Bytes, x: Side) returns (k: Option<nat>)
    requires SentSide(env, disk, c, x)
    requires !(Listens(x.f) && Next(x.f, x.a) + |Due(x)| == |c| && NoGap(c, x.file, Next(x.f, x.a)))
    ensures k == None ==> Short(c, x)
    ensures k.Some? ==> Hole(c, x, k.value)
  {
    SentBounds(env, disk, c, x);
    k := None;
    if Listens(x.f) && Next(x.f, x.a) + |Due(x)| == |c| {
      var j :| |x.file| <= j < Next(x.f, x.a) && c[j] != 0;
      k := Some(j);
    }
  }

  /**
   * The end of a stream, exactly. A home stream has ended and was sent to its end, so that its job is reported complete and
   * its local file may be deleted, but the server file is not whole yet. The steps of its own session and what is on the
   * way to it can still store the content if and only if the session listens, no byte of the stream was dropped, and its
   * first byte leaves no wrong gap.
   */
  lemma StreamEndExact(env: Env, start: System, steps: seq<Step>, i: nat, p: string)
    requires HashOk(env) && RecordsFit(env) && Started(start) && p in env.content && DiskOkAt(env, start.server, p)
    requires Legal(env, start, steps, p) && HomeRun(env, start, steps)
    requires var s := Run(env, start, steps);
             && i in s.server.sessions && i < |s.attempts| && s.attempts[i].path == p && s.attempts[i].phase.Ended?
             && s.attempts[i].phase.start.position + s.attempts[i].sent == |env.content[p]|
             && FileOnDisk(s.server, p) != env.content[p]
    ensures var s := Run(env, start, steps);
            CanStore(env, s, i, p) <==> WillStore(env.content[p], s.server, i, s.attempts[i])
  {
    var s := Run(env, start, steps);
    ReachStrict(env, start, steps, p);
    RunKeepsStreams(env, start, steps);
    EndExact(env, s, i, p);
  }

  /**
   * Today's server needs no check on deliveries for that: whatever fails or is interleaved, as long as chunks reach the
   * session of their own query.
   */
  lemma TodayStreamEndExact(env: Env, start: System, steps: seq<Step>, i: nat, p: string)
    requires HashOk(env) && RecordsFit(env) && !env.reportsSize && Started(start)
    requires p in env.content && DiskOkAt(env, start.server, p) && Possible(env, start, steps) && HomeRun(env, start, steps)
    requires var s := Run(env, start, steps);
             && i in s.server.sessions && i < |s.attempts| && s.attempts[i].path == p && s.attempts[i].phase.Ended?
             && s.attempts[i].phase.start.position + s.attempts[i].sent == |env.content[p]|
             && FileOnDisk(s.server, p) != env.content[p]
    ensures var s := Run(env, start, steps);
            CanStore(env, s, i, p) <==> WillStore(env.content[p], s.server, i, s.attempts[i])
  {
    HomeRunsAreLegal(env, start, steps, p);
    StreamEndExact(env, start, steps, i, p);
  }

  /**
   * What it takes for nothing to be dropped: a listening current session with an open pipe, and a stream that was not cut
   * off, will be given all of the content that is missing.
   */
  lemma UncutArrives(env: Env, disk: map<string, Bytes>, c: Bytes, x: Side)
    requires SentSide(env, disk, c, x) && Listens(x.f) && x.reaching && !x.a.cut
    ensures Next(x.f, x.a) + |Due(x)| == |c|
  {
    SentBounds(env, disk, c, x);
    assert x.f.once ==> AppendPosition(x.f) == x.a.phase.start.offset + x.a.got;
  }

  lemma EndExact(env: Env, s: System, i: nat, p: string)
    requires RecordsFit(env) && Strict(env, s, p) && Ending(env, s, i, p) && FileOnDisk(s.server, p) != env.content[p]
    requires s.attempts[i].phase.start.position + s.attempts[i].sent == |env.content[p]|
    ensures CanStore(env, s, i, p) <==> WillStore(env.content[p], s.server, i, s.attempts[i])
  {
    EndSide(env, s, i, p);
    if WillStore(env.content[p], s.server, i, s.attempts[i]) {
      SidePromises(env, s.server.disk, env.content[p], SideOf(s, i, p));
      var steps := Stores(env, s, i, p);
      assert OwnRun(env, s, steps, i);
    } else {
      var k := SideFails(env, s.server.disk, env.content[p], SideOf(s, i, p));
      NeverStores(env, s, i, p, k);
    }
  }

  lemma NeverStores(env: Env, s: System, i: nat, p: string, k: Option<nat>)
    requires Ending(env, s, i, p)
    requires k == None ==> Short(env.content[p], SideOf(s, i, p))
    requires k.Some? ==> Hole(env.content[p], SideOf(s, i, p), k.value)
    ensures !CanStore(env, s, i, p)
  {
    forall steps | OwnRun(env, s, steps, i) ensures FileOnDisk(Run(env, s, steps).server, p) != env.content[p] {
      if k == None {
        ShortStays(env, s, steps, i, p);
      } else {
        HoleStays(env, s, steps, i, p, k.value);
      }
    }
  }
}
