/**
 * The watcher's debounce: one handler thread per path with write events, a timer restarted by every update, and one
 * notification when the timer's function gets through. Time is a counter of nanoseconds.
 */
module Watcher {
  import opened Wrappers

  const WRITE_DURATION: nat := 10_000_000_000
  const UPDATE_BUFFER: nat := 5

  /** What an event says of a file. */
  datatype FileUpdate = FileUpdate(path: string, size: nat, modifiedTime: int)

  /** The first timer of a handler only fills its channel; later ones call a function that sends on the wait channel. */
  datatype Timer = Timer(deadline: nat, calls: bool, fired: bool)

  datatype Phase = Listening | Stuck | Notified | Removed

  datatype Accepted = Accepted(file: FileUpdate, at: nat)

  /**
   * A handler thread: its buffered channel, its current file and timer, the timer functions waiting to send (each named
   * by the number of updates accepted when its timer was set), and what it was sent and has accepted so far.
   */
  datatype Handler = Handler(path: string, channel: seq<FileUpdate>, file: Option<FileUpdate>, timer: Timer,
                             firings: seq<nat>, phase: Phase, delivered: seq<FileUpdate>, accepted: seq<Accepted>)

  datatype Notice = Notice(handler: nat, file: FileUpdate, at: nat)

  /** `pending`: the one thread that handles events waits to send this update to the handler of its path. */
  datatype State = State(now: nat, active: map<string, nat>, handlers: seq<Handler>, notices: seq<Notice>,
                         pending: Option<FileUpdate>)

  datatype Step =
    | Tick(d: nat)
    | Event(file: FileUpdate)
    | Push
    | Fire(handler: nat)
    | Accept(handler: nat)
    | Wake(handler: nat)
    | Remove(handler: nat)

  const INITIAL := State(0, map[], [], [], None)

  function NewHandler(path: string, now: nat): Handler {
    Handler(path, [], None, Timer(now + WRITE_DURATION, false, false), [], Listening, [], [])
  }

  function Send(h: Handler, file: FileUpdate): Handler {
    h.(channel := h.channel + [file], delivered := h.delivered + [file])
  }

  /** A send waits for room in the channel; one that meets a closed channel, or a channel closed under it, is excluded. */
  predicate Enabled(s: State, step: Step) {
    match step
    case Tick(d) => true
    case Event(file) =>
      && s.pending == None
      && (file.path in s.active ==>
            && s.active[file.path] < |s.handlers|
            && s.handlers[s.active[file.path]].phase in {Listening, Stuck})
    case Push =>
      && s.pending.Some? && s.pending.value.path in s.active && s.active[s.pending.value.path] < |s.handlers|
      && |s.handlers[s.active[s.pending.value.path]].channel| < UPDATE_BUFFER
    case Fire(i) => i < |s.handlers| && !s.handlers[i].timer.fired && s.handlers[i].timer.deadline <= s.now
    case Accept(i) => i < |s.handlers| && s.handlers[i].phase == Listening && s.handlers[i].channel != []
    case Wake(i) => i < |s.handlers| && s.handlers[i].phase == Listening && s.handlers[i].firings != []
                    && s.handlers[i].file.Some? && !(s.pending.Some? && s.pending.value.path == s.handlers[i].path)
    case Remove(i) => i < |s.handlers| && s.handlers[i].phase == Notified && s.handlers[i].file.Some?
  }

  /** The handler takes an update: a timer that has already called can neither be stopped nor drained. */
  function AcceptUpdate(h: Handler, now: nat): Handler
    requires h.channel != []
  {
    var taken := h.(channel := h.channel[1..], file := Some(h.channel[0]));
    if h.timer.fired && h.timer.calls then taken.(phase := Stuck)
    else taken.(timer := Timer(now + WRITE_DURATION, true, false), accepted := h.accepted + [Accepted(h.channel[0], now)])
  }

  function FireTimer(h: Handler): Handler {
    h.(timer := h.timer.(fired := true), firings := if h.timer.calls then h.firings + [|h.accepted|] else h.firings)
  }

  function Apply(s: State, step: Step): State
    requires Enabled(s, step)
  {
    match step
    case Tick(d) => s.(now := s.now + d)
    case Event(file) =>
      if file.path in s.active then s.(pending := Some(file))
      else
        s.(active := s.active[file.path := |s.handlers|], handlers := s.handlers + [NewHandler(file.path, s.now)],
           pending := Some(file))
    case Push =>
      var i := s.active[s.pending.value.path];
      s.(handlers := s.handlers[i := Send(s.handlers[i], s.pending.value)], pending := None)
    case Fire(i) => s.(handlers := s.handlers[i := FireTimer(s.handlers[i])])
    case Accept(i) => s.(handlers := s.handlers[i := AcceptUpdate(s.handlers[i], s.now)])
    case Wake(i) =>
      s.(handlers := s.handlers[i := s.handlers[i].(firings := s.handlers[i].firings[1..], phase := Notified)],
         notices := s.notices + [Notice(i, s.handlers[i].file.value, s.now)])
    case Remove(i) =>
      s.(active := s.active - {s.handlers[i].file.value.path}, handlers := s.handlers[i := s.handlers[i].(phase := Removed)])
  }

  predicate Possible(s: State, steps: seq<Step>)
    decreases |steps|
  {
    steps == [] || (Enabled(s, steps[0]) && Possible(Apply(s, steps[0]), steps[1..]))
  }

  function Run(s: State, steps: seq<Step>): State
    requires Possible(s, steps)
    decreases |steps|
  {
    if steps == [] then s else Run(Apply(s, steps[0]), steps[1..])
  }

  // ----- the invariant -----

  function Files(accepted: seq<Accepted>): seq<FileUpdate> {
    seq(|accepted|, i requires 0 <= i < |accepted| => accepted[i].file)
  }

  /** The last update the handler accepted. */
  function Last(h: Handler): Accepted
    requires h.accepted != []
  {
    h.accepted[|h.accepted| - 1]
  }

  ghost predicate HandlerOk(h: Handler, now: nat) {
    && (forall i :: 0 <= i < |h.delivered| ==> h.delivered[i].path == h.path)
    && (forall i :: 0 <= i < |h.accepted| ==> h.accepted[i].at <= now)
    && (h.timer.calls <==> h.accepted != [])
    && (h.accepted != [] ==> h.timer.deadline == Last(h).at + WRITE_DURATION)
    && (h.timer.fired ==> h.timer.deadline <= now)
    && (h.file == None ==> h.accepted == [])
    && (h.phase == Stuck ==> h.file.Some? && h.delivered == Files(h.accepted) + [h.file.value] + h.channel)
    && (h.phase != Stuck ==> h.delivered == Files(h.accepted) + h.channel)
    && (h.phase != Stuck && h.accepted != [] ==> h.file == Some(Last(h).file))
    && (h.phase != Stuck && h.accepted == [] ==> h.file == None)
    && (h.phase in {Listening, Stuck} ==> h.firings == if h.timer.calls && h.timer.fired then [|h.accepted|] else [])
    && (h.phase in {Notified, Removed} ==> h.firings == [])
    && (h.phase != Listening ==> h.timer.calls && h.timer.fired)
  }

  /** A notification carries the handler's last accepted update and comes a full wait after it. */
  ghost predicate NoticeOk(s: State, n: Notice) {
    && n.handler < |s.handlers|
    && var h := s.handlers[n.handler];
       && h.phase in {Notified, Removed} && h.accepted != []
       && n.file == Last(h).file && Last(h).at + WRITE_DURATION <= n.at <= s.now
  }

  /** Live handlers and entries of the map correspond one to one. */
  ghost predicate Bijection(s: State) {
    && (forall p :: p in s.active ==>
          s.active[p] < |s.handlers| && s.handlers[s.active[p]].path == p && s.handlers[s.active[p]].phase != Removed)
    && (forall i :: 0 <= i < |s.handlers| && s.handlers[i].phase != Removed ==>
          s.handlers[i].path in s.active && s.active[s.handlers[i].path] == i)
  }

  ghost predicate Inv(s: State) {
    && (forall i :: 0 <= i < |s.handlers| ==> HandlerOk(s.handlers[i], s.now))
    && (forall k :: 0 <= k < |s.notices| ==> NoticeOk(s, s.notices[k]))
    && (forall j, k :: 0 <= j < k < |s.notices| ==> s.notices[j].handler != s.notices[k].handler)
    && Bijection(s)
    && (s.pending.Some? ==>
          s.pending.value.path in s.active && s.handlers[s.active[s.pending.value.path]].phase in {Listening, Stuck})
  }

  lemma TickKeeps(h: Handler, now: nat, d: nat)
    requires HandlerOk(h, now)
    ensures HandlerOk(h, now + d)
  {
  }

  lemma SendKeeps(h: Handler, now: nat, file: FileUpdate)
    requires HandlerOk(h, now) && file.path == h.path
    ensures HandlerOk(Send(h, file), now)
  {
    assert h.phase == Stuck ==> Send(h, file).delivered == Files(h.accepted) + [h.file.value] + (h.channel + [file]);
    assert h.phase != Stuck ==> Send(h, file).delivered == Files(h.accepted) + (h.channel + [file]);
  }

  lemma FireKeeps(h: Handler, now: nat)
    requires HandlerOk(h, now) && !h.timer.fired && h.timer.deadline <= now
    ensures HandlerOk(FireTimer(h), now) && h.phase == Listening
  {
  }

  lemma AcceptKeeps(h: Handler, now: nat)
    requires HandlerOk(h, now) && h.phase == Listening && h.channel != []
    ensures HandlerOk(AcceptUpdate(h, now), now) && AcceptUpdate(h, now).path == h.path
    ensures AcceptUpdate(h, now).phase == Stuck <==> h.firings != []
  {
    var g := AcceptUpdate(h, now);
    assert h.channel == [h.channel[0]] + h.channel[1..];
    if h.firings == [] {
      assert Files(g.accepted) == Files(h.accepted) + [h.channel[0]];
    }
  }

  lemma WakeKeeps(h: Handler, now: nat)
    requires HandlerOk(h, now) && h.phase == Listening && h.firings != []
    ensures h.accepted != [] && h.file == Some(Last(h).file) && Last(h).at + WRITE_DURATION <= now
    ensures h.firings == [|h.accepted|]
    ensures HandlerOk(h.(firings := h.firings[1..], phase := Notified), now)
  {
  }

  lemma CurrentPath(h: Handler, now: nat)
    requires HandlerOk(h, now) && h.file.Some?
    ensures h.file.value.path == h.path
  {
    if h.phase == Stuck {
      assert h.delivered[|h.accepted|] == h.file.value;
    } else {
      assert h.delivered[|h.accepted| - 1] == Files(h.accepted)[|h.accepted| - 1];
    }
  }

  /** Changing one handler, not its path and not its removal, keeps the map. */
  lemma BijectionFrame(s: State, t: State, i: nat, g: Handler)
    requires Bijection(s) && i < |s.handlers| && t.active == s.active && t.handlers == s.handlers[i := g]
    requires g.path == s.handlers[i].path && g.phase != Removed && s.handlers[i].phase != Removed
    ensures Bijection(t)
  {
  }

  /** A notification stays as it is while its handler does, but for being removed. */
  lemma NoticeFrame(s: State, t: State, n: Notice, i: nat, g: Handler)
    requires NoticeOk(s, n) && i < |s.handlers| && t.handlers == s.handlers[i := g] && t.now == s.now
    requires n.handler == i ==> g == s.handlers[i].(phase := Removed)
    ensures NoticeOk(t, n)
  {
  }

  /** A step of a handler that has not notified and does not notify. */
  lemma OneHandlerStep(s: State, t: State, i: nat, g: Handler)
    requires Inv(s) && i < |s.handlers| && s.handlers[i].phase in {Listening, Stuck}
    requires t == s.(handlers := s.handlers[i := g], pending := t.pending)
    requires (t.pending == s.pending || t.pending == None)
    requires HandlerOk(g, s.now) && g.path == s.handlers[i].path && g.phase in {Listening, Stuck}
    ensures Inv(t)
  {
    forall k | 0 <= k < |t.notices| ensures NoticeOk(t, t.notices[k]) {
      assert NoticeOk(s, s.notices[k]);
      NoticeFrame(s, t, s.notices[k], i, g);
    }
    BijectionFrame(s, t, i, g);
  }

  lemma NewHandlerOk(path: string, now: nat)
    ensures HandlerOk(NewHandler(path, now), now)
  {
    assert Files([]) == [];
  }

  /** The event thread takes up an update of a path that has a live handler. */
  lemma PendingStep(s: State, file: FileUpdate)
    requires Inv(s) && file.path in s.active && s.handlers[s.active[file.path]].phase in {Listening, Stuck}
    ensures Inv(s.(pending := Some(file)))
  {
    var t := s.(pending := Some(file));
    forall k | 0 <= k < |t.notices| ensures NoticeOk(t, t.notices[k]) {
      assert NoticeOk(s, s.notices[k]);
    }
  }

  /** A new handler for a path that has none. */
  lemma StartStep(s: State, path: string)
    requires Inv(s) && path !in s.active
    ensures Inv(s.(active := s.active[path := |s.handlers|], handlers := s.handlers + [NewHandler(path, s.now)]))
  {
    var t := s.(active := s.active[path := |s.handlers|], handlers := s.handlers + [NewHandler(path, s.now)]);
    NewHandlerOk(path, s.now);
    forall k | 0 <= k < |t.notices| ensures NoticeOk(t, t.notices[k]) {
      NoticeStays(s, t, s.notices[k]);
    }
    StartBijection(s, path);
  }

  lemma NoticeStays(s: State, t: State, n: Notice)
    requires NoticeOk(s, n) && t.now == s.now && |s.handlers| <= |t.handlers| && t.handlers[..|s.handlers|] == s.handlers
    ensures NoticeOk(t, n)
  {
    assert t.handlers[n.handler] == t.handlers[..|s.handlers|][n.handler];
  }

  lemma StartBijection(s: State, path: string)
    requires Bijection(s) && path !in s.active
    ensures Bijection(s.(active := s.active[path := |s.handlers|], handlers := s.handlers + [NewHandler(path, s.now)]))
  {
  }

  lemma EventStep(s: State, file: FileUpdate)
    requires Inv(s) && Enabled(s, Event(file))
    ensures Inv(Apply(s, Event(file)))
  {
    if file.path in s.active {
      PendingStep(s, file);
    } else {
      StartStep(s, file.path);
      PendingStep(s.(active := s.active[file.path := |s.handlers|], handlers := s.handlers + [NewHandler(file.path, s.now)]), file);
    }
  }

  lemma PushStep(s: State)
    requires Inv(s) && Enabled(s, Push)
    ensures Inv(Apply(s, Push))
  {
    var i := s.active[s.pending.value.path];
    SendKeeps(s.handlers[i], s.now, s.pending.value);
    OneHandlerStep(s, Apply(s, Push), i, Send(s.handlers[i], s.pending.value));
  }

  lemma WakeStep(s: State, i: nat)
    requires Inv(s) && Enabled(s, Wake(i))
    ensures Inv(Apply(s, Wake(i)))
  {
    var (t, h) := (Apply(s, Wake(i)), s.handlers[i]);
    var g := h.(firings := h.firings[1..], phase := Notified);
    WakeKeeps(h, s.now);
    BijectionFrame(s, t, i, g);
    WokenNotices(s, t, i, g, Notice(i, h.file.value, s.now));
  }

  /** The notices after a handler's notification: the earlier ones, which other handlers gave, and the new one. */
  lemma WokenNotices(s: State, t: State, i: nat, g: Handler, last: Notice)
    requires (forall k :: 0 <= k < |s.notices| ==> NoticeOk(s, s.notices[k])) && i < |s.handlers|
    requires forall j, k :: 0 <= j < k < |s.notices| ==> s.notices[j].handler != s.notices[k].handler
    requires s.handlers[i].phase == Listening && t.handlers == s.handlers[i := g] && t.now == s.now
    requires t.notices == s.notices + [last] && last.handler == i && last.at == s.now
    requires g.phase == Notified && g.accepted != [] && last.file == Last(g).file && Last(g).at + WRITE_DURATION <= s.now
    ensures forall k :: 0 <= k < |t.notices| ==> NoticeOk(t, t.notices[k])
    ensures forall j, k :: 0 <= j < k < |t.notices| ==> t.notices[j].handler != t.notices[k].handler
  {
    forall k | 0 <= k < |s.notices| ensures NoticeOk(t, s.notices[k]) && s.notices[k].handler != i {
      EarlierNotice(s, t, i, g, s.notices[k]);
    }
  }

  /** A handler that still listens has not notified. */
  lemma EarlierNotice(s: State, t: State, i: nat, g: Handler, n: Notice)
    requires NoticeOk(s, n) && i < |s.handlers| && s.handlers[i].phase == Listening
    requires t.handlers == s.handlers[i := g] && t.now == s.now
    ensures NoticeOk(t, n) && n.handler != i
  {
    NoticeFrame(s, t, n, i, g);
  }

  lemma RemoveStep(s: State, i: nat)
    requires Inv(s) && Enabled(s, Remove(i))
    ensures Inv(Apply(s, Remove(i)))
  {
    var t := Apply(s, Remove(i));
    CurrentPath(s.handlers[i], s.now);
    RemovedBijection(s, t, i);
    forall k | 0 <= k < |t.notices| ensures NoticeOk(t, t.notices[k]) {
      assert NoticeOk(s, s.notices[k]);
      NoticeFrame(s, t, s.notices[k], i, t.handlers[i]);
    }
    RemovedHandlers(s, t, i);
  }

  lemma RemovedBijection(s: State, t: State, i: nat)
    requires Bijection(s) && i < |s.handlers| && s.handlers[i].phase != Removed
    requires t.active == s.active - {s.handlers[i].path}
    requires t.handlers == s.handlers[i := s.handlers[i].(phase := Removed)]
    ensures Bijection(t)
  {
  }

  lemma RemovedHandlers(s: State, t: State, i: nat)
    requires i < |s.handlers| && s.handlers[i].phase == Notified && t.now == s.now
    requires t.handlers == s.handlers[i := s.handlers[i].(phase := Removed)]
    requires forall j :: 0 <= j < |s.handlers| ==> HandlerOk(s.handlers[j], s.now)
    ensures forall j :: 0 <= j < |t.handlers| ==> HandlerOk(t.handlers[j], t.now)
  {
  }

  lemma StepKeepsInv(s: State, step: Step)
    requires Inv(s) && Enabled(s, step)
    ensures Inv(Apply(s, step))
  {
    match step
    case Tick(d) =>
      forall i | 0 <= i < |s.handlers| ensures HandlerOk(s.handlers[i], s.now + d) {
        TickKeeps(s.handlers[i], s.now, d);
      }
    case Event(file) => EventStep(s, file);
    case Push => PushStep(s);
    case Fire(i) =>
      FireKeeps(s.handlers[i], s.now);
      OneHandlerStep(s, Apply(s, step), i, FireTimer(s.handlers[i]));
    case Accept(i) =>
      AcceptKeeps(s.handlers[i], s.now);
      OneHandlerStep(s, Apply(s, step), i, AcceptUpdate(s.handlers[i], s.now));
    case Wake(i) => WakeStep(s, i);
    case Remove(i) => RemoveStep(s, i);
  }

  lemma {:induction false} RunKeepsInv(s: State, steps: seq<Step>)
    requires Inv(s) && Possible(s, steps)
    ensures Inv(Run(s, steps))
    decreases |steps|
  {
    if steps != [] {
      StepKeepsInv(s, steps[0]);
      RunKeepsInv(Apply(s, steps[0]), steps[1..]);
    }
  }

  // ----- events and what handlers are given -----

  /** An event of a file concerns the live handler of its path, or the one it starts. */
  predicate Concerns(s: State, file: FileUpdate, i: nat) {
    if i < |s.handlers| then s.handlers[i].path == file.path && s.handlers[i].phase != Removed
    else i == |s.handlers| && forall j :: 0 <= j < |s.handlers| && s.handlers[j].path == file.path ==> s.handlers[j].phase == Removed
  }

  /** The files of the events of a run that concern handler i: those of its path from its start on. */
  function EventsFor(s: State, steps: seq<Step>, i: nat): seq<FileUpdate>
    requires Possible(s, steps)
    decreases |steps|
  {
    if steps == [] then []
    else (if steps[0].Event? && Concerns(s, steps[0].file, i) then [steps[0].file] else [])
         + EventsFor(Apply(s, steps[0]), steps[1..], i)
  }

  /** The event thread waits to send to the handler. */
  predicate WaitsFor(s: State, h: Handler) {
    s.pending.Some? && s.pending.value.path == h.path && h.phase != Removed
  }

  /** What handler i has been given, and what the event thread waits to give it. */
  function Given(s: State, i: nat): seq<FileUpdate> {
    if i >= |s.handlers| then []
    else s.handlers[i].delivered + if WaitsFor(s, s.handlers[i]) then [s.pending.value] else []
  }

  lemma EventGives(s: State, file: FileUpdate, i: nat)
    requires Inv(s) && Enabled(s, Event(file))
    ensures Given(Apply(s, Event(file)), i) == Given(s, i) + if Concerns(s, file, i) then [file] else []
  {
    if i < |s.handlers| && file.path in s.active && s.active[file.path] == i {
      assert Concerns(s, file, i);
    } else if i == |s.handlers| && file.path !in s.active {
      assert Concerns(s, file, i);
    } else {
      assert !Concerns(s, file, i);
    }
  }

  lemma StepGives(s: State, step: Step, i: nat)
    requires Inv(s) && Enabled(s, step)
    ensures Given(Apply(s, step), i) == Given(s, i) + if step.Event? && Concerns(s, step.file, i) then [step.file] else []
  {
    match step
    case Event(file) => EventGives(s, file, i);
    case Push => PushGives(s, i);
    case Tick(_) => assert Given(Apply(s, step), i) == Given(s, i) + [];
    case _ =>
      SameHandlerGives(s, Apply(s, step), step.handler, Apply(s, step).handlers[step.handler], i);
      assert Given(s, i) == Given(s, i) + [];
  }

  /** A send gives the handler what was waiting for it, and no other handler anything. */
  lemma PushGives(s: State, i: nat)
    requires Inv(s) && Enabled(s, Push)
    ensures Given(Apply(s, Push), i) == Given(s, i) == Given(s, i) + []
  {
    var j := s.active[s.pending.value.path];
    if i < |s.handlers| && i != j {
      assert s.handlers[i].phase != Removed ==> s.handlers[i].path != s.pending.value.path;
    }
  }

  /** Steps of a handler that is given nothing. */
  lemma SameHandlerGives(s: State, t: State, j: nat, g: Handler, i: nat)
    requires j < |s.handlers| && t.handlers == s.handlers[j := g] && t.pending == s.pending
    requires g.path == s.handlers[j].path && g.delivered == s.handlers[j].delivered
    requires s.handlers[j].phase == Removed ==> g.phase == Removed
    requires g.phase == Removed ==> !WaitsFor(s, s.handlers[j])
    ensures Given(t, i) == Given(s, i)
  {
  }

  lemma Joined(a: seq<FileUpdate>, b: seq<FileUpdate>, c: seq<FileUpdate>)
    ensures a + b + c == a + (b + c)
  {
  }

  lemma {:induction false} RunGives(s: State, steps: seq<Step>, i: nat)
    requires Inv(s) && Possible(s, steps)
    ensures Given(Run(s, steps), i) == Given(s, i) + EventsFor(s, steps, i)
    decreases |steps|
  {
    if steps != [] {
      StepKeepsInv(s, steps[0]);
      StepGives(s, steps[0], i);
      RunGives(Apply(s, steps[0]), steps[1..], i);
      var now := if steps[0].Event? && Concerns(s, steps[0].file, i) then [steps[0].file] else [];
      Joined(Given(s, i), now, EventsFor(Apply(s, steps[0]), steps[1..], i));
    } else {
      assert Given(s, i) == Given(s, i) + [];
    }
  }

  /**
   * Nothing is lost, made up or changed on the way to a handler: in every run, what it has been given and what waits to be
   * given to it are the files of the run's events of its path since it was started, in order.
   */
  lemma DeliveredExact(steps: seq<Step>, i: nat)
    requires Possible(INITIAL, steps) && i < |Run(INITIAL, steps).handlers|
    ensures var (t, h) := (Run(INITIAL, steps), Run(INITIAL, steps).handlers[i]);
            h.delivered + (if WaitsFor(t, h) then [t.pending.value] else []) == EventsFor(INITIAL, steps, i)
  {
    RunGives(INITIAL, steps, i);
    assert [] + EventsFor(INITIAL, steps, i) == EventsFor(INITIAL, steps, i);
  }

  lemma {:induction false} EventsAreSteps(s: State, steps: seq<Step>, i: nat)
    requires Possible(s, steps)
    ensures forall file :: file in EventsFor(s, steps, i) ==> Event(file) in steps
    decreases |steps|
  {
    if steps != [] {
      EventsAreSteps(Apply(s, steps[0]), steps[1..], i);
    }
  }

  /** So a notice is about a file that an event of the run carried, unchanged: the last one its handler accepted. */
  lemma NoticesAreEvents(steps: seq<Step>, k: nat)
    requires Possible(INITIAL, steps) && k < |Run(INITIAL, steps).notices|
    ensures var (t, n) := (Run(INITIAL, steps), Run(INITIAL, steps).notices[k]);
            && n.handler < |t.handlers| && var (h, events) := (t.handlers[n.handler], EventsFor(INITIAL, steps, n.handler));
               && 0 < |h.accepted| <= |events| && n.file == events[|h.accepted| - 1] && Event(n.file) in steps
  {
    RunKeepsInv(INITIAL, steps);
    var (t, n) := (Run(INITIAL, steps), Run(INITIAL, steps).notices[k]);
    assert NoticeOk(t, n);
    AcceptedAt(t.handlers[n.handler], t.now);
    DeliveredExact(steps, n.handler);
    EventsAreSteps(INITIAL, steps, n.handler);
    assert n.file in EventsFor(INITIAL, steps, n.handler);
  }

  lemma AcceptedAt(h: Handler, now: nat)
    requires HandlerOk(h, now) && h.accepted != []
    ensures |h.accepted| <= |h.delivered| && h.delivered[|h.accepted| - 1] == Last(h).file
  {
    assert Files(h.accepted)[|h.accepted| - 1] == Last(h).file;
  }

  /**
   * Debounce safety, in every run: every notification carries the last update its handler accepted, which is the file of
   * an event of the run, unchanged, and comes at least the write duration after it; a handler notifies at most once; at most one timer function is ever waiting, and it
   * belongs to the last accepted update; and no path has two live handlers.
   */
  lemma DebounceSafe(steps: seq<Step>)
    requires Possible(INITIAL, steps)
    ensures var t := Run(INITIAL, steps);
            && (forall k :: 0 <= k < |t.notices| ==> NoticeOk(t, t.notices[k]) && Event(t.notices[k].file) in steps)
            && (forall j, k :: 0 <= j < k < |t.notices| ==> t.notices[j].handler != t.notices[k].handler)
            && (forall i :: 0 <= i < |t.handlers| ==>
                  t.handlers[i].firings == [] || t.handlers[i].firings == [|t.handlers[i].accepted|])
            && (forall i, j :: 0 <= i < j < |t.handlers| && t.handlers[i].path == t.handlers[j].path ==>
                  t.handlers[i].phase == Removed || t.handlers[j].phase == Removed)
            && Bijection(t)
  {
    RunKeepsInv(INITIAL, steps);
    var t := Run(INITIAL, steps);
    forall k | 0 <= k < |t.notices| ensures Event(t.notices[k].file) in steps {
      NoticesAreEvents(steps, k);
    }
    forall i | 0 <= i < |t.handlers| ensures t.handlers[i].firings == [] || t.handlers[i].firings == [|t.handlers[i].accepted|] {
      assert HandlerOk(t.handlers[i], t.now);
    }
  }

  /** What a notification forgets: exactly the updates still buffered in the channel it closes. */
  lemma WakeDropsBuffered(s: State, i: nat)
    requires Inv(s) && Enabled(s, Wake(i))
    ensures var h := Apply(s, Wake(i)).handlers[i];
            && h.delivered == Files(h.accepted) + s.handlers[i].channel
            && (s.handlers[i].channel == [] <==> |h.delivered| == |h.accepted|)
  {
    assert HandlerOk(s.handlers[i], s.now);
  }

  /** A stuck handler stays stuck in every run, keeps its path for itself, and never notifies. */
  lemma {:induction false} StuckIsForever(s: State, i: nat, steps: seq<Step>)
    requires Inv(s) && i < |s.handlers| && s.handlers[i].phase == Stuck && Possible(s, steps)
    ensures var t := Run(s, steps);
            && i < |t.handlers| && t.handlers[i].phase == Stuck && t.handlers[i].path == s.handlers[i].path
            && s.handlers[i].path in t.active && t.active[s.handlers[i].path] == i
            && (forall k :: 0 <= k < |t.notices| ==> t.notices[k].handler != i)
    decreases |steps|
  {
    if steps == [] {
      forall k | 0 <= k < |s.notices| ensures s.notices[k].handler != i {
        assert NoticeOk(s, s.notices[k]);
      }
    } else {
      StepKeepsInv(s, steps[0]);
      StuckStays(s, i, steps[0]);
      StuckIsForever(Apply(s, steps[0]), i, steps[1..]);
    }
  }

  lemma StuckStays(s: State, i: nat, step: Step)
    requires Inv(s) && i < |s.handlers| && s.handlers[i].phase == Stuck && Enabled(s, step)
    ensures var t := Apply(s, step);
            i < |t.handlers| && t.handlers[i].phase == Stuck && t.handlers[i].path == s.handlers[i].path
  {
    if step.Fire? {
      assert HandlerOk(s.handlers[i], s.now);
    }
  }

  // ----- one stuck handler stops all paths -----

  /** The event thread waits for room in the channel of a handler that will never take anything again. */
  ghost predicate Blocked(s: State, i: nat) {
    && i < |s.handlers| && s.handlers[i].phase == Stuck && |s.handlers[i].channel| == UPDATE_BUFFER
    && s.pending.Some? && s.pending.value.path == s.handlers[i].path
  }

  lemma BlockedStays(s: State, i: nat, step: Step)
    requires Inv(s) && Blocked(s, i) && Enabled(s, step)
    ensures var t := Apply(s, step);
            && Blocked(t, i) && |t.handlers| == |s.handlers|
            && forall j :: 0 <= j < |s.handlers| ==> t.handlers[j].delivered == s.handlers[j].delivered
  {
    if step.Fire? {
      assert HandlerOk(s.handlers[i], s.now);
    }
  }

  /** From then on, in every run, no update of any path reaches any handler, and no new path gets one. */
  lemma {:induction false} BlockedStopsAllPaths(s: State, i: nat, steps: seq<Step>)
    requires Inv(s) && Blocked(s, i) && Possible(s, steps)
    ensures var t := Run(s, steps);
            && Blocked(t, i) && |t.handlers| == |s.handlers|
            && forall j :: 0 <= j < |s.handlers| ==> t.handlers[j].delivered == s.handlers[j].delivered
    decreases |steps|
  {
    if steps != [] {
      StepKeepsInv(s, steps[0]);
      BlockedStays(s, i, steps[0]);
      BlockedStopsAllPaths(Apply(s, steps[0]), i, steps[1..]);
    }
  }

  lemma Chain(s: State, step: Step, rest: seq<Step>)
    requires Enabled(s, step) && Possible(Apply(s, step), rest)
    ensures Possible(s, [step] + rest) && Run(s, [step] + rest) == Run(Apply(s, step), rest)
  {
    assert ([step] + rest)[1..] == rest;
  }

  /** Enough further events of its path bring every stuck handler there. */
  lemma {:induction false} StuckBlocks(s: State, i: nat, file: FileUpdate) returns (steps: seq<Step>)
    requires Inv(s) && i < |s.handlers| && s.handlers[i].phase == Stuck && s.handlers[i].path == file.path
    requires s.pending == None && |s.handlers[i].channel| <= UPDATE_BUFFER
    ensures Possible(s, steps) && Blocked(Run(s, steps), i)
    decreases UPDATE_BUFFER - |s.handlers[i].channel|
  {
    assert file.path in s.active && s.active[file.path] == i;
    var t := Apply(s, Event(file));
    StepKeepsInv(s, Event(file));
    if |s.handlers[i].channel| == UPDATE_BUFFER {
      steps := [Event(file)];
      Chain(s, Event(file), []);
    } else {
      StepKeepsInv(t, Push);
      var rest := StuckBlocks(Apply(t, Push), i, file);
      Chain(t, Push, rest);
      Chain(s, Event(file), [Push] + rest);
      steps := [Event(file)] + ([Push] + rest);
    }
  }

  lemma {:induction false} RunSplit(s: State, a: seq<Step>, b: seq<Step>)
    requires Possible(s, a) && Possible(Run(s, a), b)
    ensures Possible(s, a + b) && Run(s, a + b) == Run(Run(s, a), b)
    decreases |a|
  {
    if a == [] {
      assert a + b == b;
    } else {
      assert (a + b)[1..] == a[1..] + b;
      RunSplit(Apply(s, a[0]), a[1..], b);
    }
  }

  /** One handler, whose timer function waits for it, and nothing in its channel. */
  predicate Armed(s: State, path: string) {
    && s.pending == None && path in s.active && s.active[path] == 0 && |s.handlers| == 1
    && var h := s.handlers[0];
       h.path == path && h.phase == Listening && h.channel == [] && h.timer.fired && h.timer.calls
  }

  lemma ArmedIsReachable(a: FileUpdate) returns (steps: seq<Step>)
    ensures Possible(INITIAL, steps) && Armed(Run(INITIAL, steps), a.path)
  {
    var s1 := Apply(INITIAL, Event(a));
    var s2 := Apply(s1, Push);
    var s3 := Apply(s2, Accept(0));
    var s4 := Apply(s3, Tick(WRITE_DURATION));
    Chain(s4, Fire(0), []);
    Chain(s3, Tick(WRITE_DURATION), [Fire(0)] + []);
    Chain(s2, Accept(0), [Tick(WRITE_DURATION)] + ([Fire(0)] + []));
    Chain(s1, Push, [Accept(0)] + ([Tick(WRITE_DURATION)] + ([Fire(0)] + [])));
    steps := [Push] + ([Accept(0)] + ([Tick(WRITE_DURATION)] + ([Fire(0)] + [])));
    Chain(INITIAL, Event(a), steps);
    steps := [Event(a)] + steps;
  }

  lemma ArmedSticks(s: State, b: FileUpdate) returns (steps: seq<Step>)
    requires Armed(s, b.path)
    ensures Possible(s, steps)
    ensures var t := Run(s, steps);
            && |t.handlers| == 1 && t.handlers[0].phase == Stuck && t.handlers[0].path == b.path
            && t.handlers[0].channel == [] && t.pending == None
  {
    var s1 := Apply(s, Event(b));
    var s2 := Apply(s1, Push);
    Chain(s2, Accept(0), []);
    Chain(s1, Push, [Accept(0)] + []);
    steps := [Push] + ([Accept(0)] + []);
    Chain(s, Event(b), steps);
    steps := [Event(b)] + steps;
  }

  /** Two events a wait apart are enough to get stuck: the second is accepted after the timer has called. */
  lemma StuckIsReachable(a: FileUpdate, b: FileUpdate) returns (steps: seq<Step>)
    requires a.path == b.path
    ensures Possible(INITIAL, steps)
    ensures var t := Run(INITIAL, steps);
            && |t.handlers| == 1 && t.handlers[0].phase == Stuck && t.handlers[0].path == a.path
            && t.handlers[0].channel == [] && t.pending == None
  {
    var first := ArmedIsReachable(a);
    var second := ArmedSticks(Run(INITIAL, first), b);
    RunSplit(INITIAL, first, second);
    steps := first + second;
  }

  /** So events of a single file can stop the watcher for all files. */
  lemma BlockedIsReachable(a: FileUpdate) returns (steps: seq<Step>)
    ensures Possible(INITIAL, steps) && Blocked(Run(INITIAL, steps), 0)
  {
    var first := StuckIsReachable(a, a);
    RunKeepsInv(INITIAL, first);
    var rest := StuckBlocks(Run(INITIAL, first), 0, a);
    RunSplit(INITIAL, first, rest);
    steps := first + rest;
  }

  // ----- the watcher object -----

  class FileWatcher {
    var activeFilesMap: map<string, nat>
    var handlers: seq<Handler>
    var notices: seq<Notice>
    var clock: nat

    ghost function View(): State
      reads this
    {
      State(clock, activeFilesMap, handlers, notices, None)
    }

    ghost predicate Valid()
      reads this
    {
      Inv(View())
    }

    constructor ()
      ensures Valid() && View() == INITIAL
    {
      activeFilesMap, handlers, notices, clock := map[], [], [], 0;
    }

    /** handleFileEvent on a regular file, when its send does not wait: start a handler the first time, then send. */
    method HandleFileEvent(file: FileUpdate)
      requires Valid() && Enabled(View(), Event(file)) && Enabled(Apply(View(), Event(file)), Push)
      modifies `activeFilesMap, `handlers
      ensures Valid() && View() == Apply(Apply(old(View()), Event(file)), Push)
      ensures file.path in activeFilesMap && activeFilesMap[file.path] < |handlers|
      ensures var (i, h) := (activeFilesMap[file.path], handlers[activeFilesMap[file.path]]);
              if file.path in old(activeFilesMap)
              then i < |old(handlers)| && h.channel == old(handlers)[i].channel + [file]
                   && h.delivered == old(handlers)[i].delivered + [file]
              else i == |old(handlers)| && h.path == file.path && h.channel == [file] && h.delivered == [file]
    {
      ghost var before := View();
      EventStep(before, file);
      PushStep(Apply(before, Event(file)));
      if file.path !in activeFilesMap {
        activeFilesMap := activeFilesMap[file.path := |handlers|];
        handlers := handlers + [NewHandler(file.path, clock)];
      }
      var i := activeFilesMap[file.path];
      SendUpdate(before, i, file);
    }

    /** The send to the handler's channel, when it does not wait. */
    method SendUpdate(ghost before: State, i: nat, file: FileUpdate)
      requires Enabled(before, Event(file)) && Enabled(Apply(before, Event(file)), Push)
      requires View().(pending := Some(file)) == Apply(before, Event(file))
      requires file.path in activeFilesMap && activeFilesMap[file.path] == i < |handlers|
      modifies `handlers
      ensures View() == Apply(Apply(before, Event(file)), Push)
      ensures |handlers| == |old(handlers)| && handlers[i].path == old(handlers)[i].path
      ensures handlers[i].channel == old(handlers)[i].channel + [file]
      ensures handlers[i].delivered == old(handlers)[i].delivered + [file]
    {
      handlers := handlers[i := handlers[i].(channel := handlers[i].channel + [file], delivered := handlers[i].delivered + [file])];
    }

    /** The update case of a handler's select. */
    method TakeUpdate(i: nat) returns (stuck: bool)
      requires Valid() && Enabled(View(), Accept(i))
      modifies `handlers
      ensures Valid() && View() == Apply(old(View()), Accept(i))
      ensures stuck <==> old(handlers[i]).firings != []
    {
      AcceptKeeps(handlers[i], clock);
      OneHandlerStep(View(), Apply(View(), Accept(i)), i, AcceptUpdate(handlers[i], clock));
      ghost var next := Apply(View(), Accept(i));
      var h;
      h, stuck := ReceiveUpdate(handlers[i]);
      handlers := handlers[i := h];
      assert View() == next;
    }

    /** Take the update, then stop the timer: one that has called already leaves nothing to drain, and blocks for good. */
    method ReceiveUpdate(h: Handler) returns (g: Handler, stuck: bool)
      requires h.channel != []
      ensures g == AcceptUpdate(h, clock)
      ensures stuck <==> h.timer.fired && h.timer.calls
    {
      var updatedFile := h.channel[0];
      g := h.(channel := h.channel[1..], file := Some(updatedFile));
      stuck := h.timer.fired && h.timer.calls;
      if stuck {
        g := g.(phase := Stuck);
      } else {
        g := g.(timer := Timer(clock + WRITE_DURATION, true, false), accepted := g.accepted + [Accepted(updatedFile, clock)]);
      }
    }

    /** The wait case: notify, and close the channel. The file is never nil there. */
    method NotifyFileAvailable(i: nat)
      requires Valid() && i < |handlers| && handlers[i].phase == Listening && handlers[i].firings != []
      modifies `handlers, `notices
      ensures Valid() && Enabled(old(View()), Wake(i)) && View() == Apply(old(View()), Wake(i))
    {
      WakeKeeps(handlers[i], clock);
      StepKeepsInv(View(), Wake(i));
      notices := notices + [Notice(i, handlers[i].file.value, clock)];
      handlers := handlers[i := handlers[i].(firings := handlers[i].firings[1..], phase := Notified)];
    }

    /** The end of the wait case: the path leaves the map. */
    method RemoveHandler(i: nat)
      requires Valid() && Enabled(View(), Remove(i))
      modifies `activeFilesMap, `handlers
      ensures Valid() && View() == Apply(old(View()), Remove(i))
      ensures handlers[i].path !in activeFilesMap
    {
      RemoveStep(View(), i);
      CurrentPath(handlers[i], clock);
      activeFilesMap := activeFilesMap - {handlers[i].file.value.path};
      handlers := handlers[i := handlers[i].(phase := Removed)];
    }
  }
}
